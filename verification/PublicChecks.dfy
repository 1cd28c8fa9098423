module PublicChecks {
  import opened SchemaModel
  import opened Undo
  import opened Forward
  import opened History
  import opened PublicNames
  import opened PublicRevisions

  function Bases0001(): seq<Base> {
    [Base(0, [0, 4], [], [], []),
     Base(1, [4, 6], [], [], []),
     Base(2, [6, 10], [], [], []),
     Base(3, [10, 11], [], [], []),
     Base(4, [11, 11], [], [], []),
     Base(5, [11], [], [], [])]
  }

  function Rev0001(): Revision {
    Revision(UP_0001, DOWN_0001, Base(5, [11], [], [], []), true)
  }

  function Bases0002(): seq<Base> {
    [Base(5, [11, 12], [], [], []),
     Base(5, [12], [], [], [])]
  }

  function Rev0002(): Revision {
    Revision(UP_0002, DOWN_0002, Base(5, [12], [], [], []), true)
  }

  function Bases0003(): seq<Base> {
    [Base(5, [12, 16, 17, 18, 19, 20], [], [], []),
     Base(6, [20], [], [], [])]
  }

  function Rev0003(): Revision {
    Revision(UP_0003, DOWN_0003, Base(6, [20], [], [], []), true)
  }

  function Bases0004(): seq<Base> {
    [Base(6, [20, 23, 24, 25, 26, 27], [], [], []),
     Base(7, [27], [], [], [])]
  }

  function Rev0004(): Revision {
    Revision(UP_0004, DOWN_0004, Base(7, [27], [], [], []), true)
  }

  function Bases0005(): seq<Base> {
    [Base(7, [27, 28, 29, 30, 31], [], [], []),
     Base(7, [31], [], [], [])]
  }

  function Rev0005(): Revision {
    Revision(UP_0005, DOWN_0005, Base(7, [31], [], [], []), false)
  }

  function Bases0006(): seq<Base> {
    [Base(7, [31, 32], [], [], []),
     Base(7, [32], [], [], [])]
  }

  function Rev0006(): Revision {
    Revision(UP_0006, DOWN_0006, Base(7, [32], [], [], []), true)
  }

  function Bases0007(): seq<Base> {
    [Base(7, [32, 33, 34, 35], [], [], []),
     Base(7, [35], [], [], [])]
  }

  function Rev0007(): Revision {
    Revision(UP_0007, DOWN_0007, Base(7, [35], [], [], []), true)
  }

  function Bases0008(): seq<Base> {
    [Base(7, [35], [], [], [])]
  }

  function Rev0008(): Revision {
    Revision(UP_0008, DOWN_0008, Base(7, [35], [], [], []), true)
  }

  function Bases0009(): seq<Base> {
    [Base(7, [35], [], [], [])]
  }

  function Rev0009(): Revision {
    Revision(UP_0009, DOWN_0009, Base(7, [35], [], [], []), true)
  }

  function Bases0010(): seq<Base> {
    [Base(7, [35, 36], [], [], []),
     Base(7, [36, 36, 36], [], [], []),
     Base(8, [36], [], [], [])]
  }

  function Rev0010(): Revision {
    Revision(UP_0010, DOWN_0010, Base(8, [36], [], [], []), true)
  }

  function Bases0011(): seq<Base> {
    [Base(8, [36, 37, 38], [], [], []),
     Base(8, [38], [], [], [])]
  }

  function Rev0011(): Revision {
    Revision(UP_0011, DOWN_0011, Base(8, [38], [], [], []), true)
  }

  lemma Undone0001()
    ensures |UP_0001| == |DOWN_0001| == 5 && BlocksUndone(UP_0001, 5, DOWN_0001)
  {
    var up, down := UP_0001, DOWN_0001;
    assert UndoesFrom(up[0], 1, down[4], 0, 0, 1);
    assert UndoesFrom(up[1], 1, down[3], 0, 0, 1);
    assert UndoesFrom(up[2], 1, down[2], 0, 0, 1);
    assert UndoesFrom(up[3], 1, down[1], 0, 0, 1);
    assert UndoesFrom(up[4], 1, down[0], 0, 0, 1);
  }

  lemma Certified0001()
    ensures Rev0001().Forwards(Base(0, [0], [], [], []))
    ensures Rev0001().Restores() && Rev0001().SparesOlderEnums(Base(0, [0], [], [], []))
  {
    Undone0001();
    var up, bs := UP_0001, Bases0001();
    Passed(up[0], 0, 1, bs[0]);
    Passed(up[1], 0, 1, bs[1]);
    Passed(up[2], 0, 1, bs[2]);
    Passed(up[3], 0, 1, bs[3]);
    Passed(up[4], 0, 1, bs[4]);
    assert BlocksCertified(UP_0001, 5, Bases0001());
    ForwardsByCheck(Rev0001(), Bases0001(), Base(0, [0], [], [], []));
    RestoresByCheck(Rev0001(), Bases0001(), Base(0, [0], [], [], []));
  }

  lemma Undone0002()
    ensures |UP_0002| == |DOWN_0002| == 1 && BlocksUndone(UP_0002, 1, DOWN_0002)
  {
    var up, down := UP_0002, DOWN_0002;
    assert UndoesFrom(up[0], 1, down[0], 0, 0, 1);
  }

  lemma Certified0002()
    ensures Rev0002().Forwards(Base(5, [11], [], [], []))
    ensures Rev0002().Restores() && Rev0002().SparesOlderEnums(Base(5, [11], [], [], []))
  {
    Undone0002();
    var up, bs := UP_0002, Bases0002();
    Passed(up[0], 0, 1, bs[0]);
    assert BlocksCertified(UP_0002, 1, Bases0002());
    ForwardsByCheck(Rev0002(), Bases0002(), Base(5, [11], [], [], []));
    RestoresByCheck(Rev0002(), Bases0002(), Base(5, [11], [], [], []));
  }

  lemma Undone0003()
    ensures |UP_0003| == |DOWN_0003| == 1 && BlocksUndone(UP_0003, 1, DOWN_0003)
  {
    var up, down := UP_0003, DOWN_0003;
    assert UndoesFrom(up[0], 5, down[0], 0, 0, 5);
  }

  lemma Certified0003()
    ensures Rev0003().Forwards(Base(5, [12], [], [], []))
    ensures Rev0003().Restores() && Rev0003().SparesOlderEnums(Base(5, [12], [], [], []))
  {
    Undone0003();
    var up, bs := UP_0003, Bases0003();
    Passed(up[0], 0, 5, bs[0]);
    assert BlocksCertified(UP_0003, 1, Bases0003());
    ForwardsByCheck(Rev0003(), Bases0003(), Base(5, [12], [], [], []));
    RestoresByCheck(Rev0003(), Bases0003(), Base(5, [12], [], [], []));
  }

  lemma Undone0004()
    ensures |UP_0004| == |DOWN_0004| == 1 && BlocksUndone(UP_0004, 1, DOWN_0004)
  {
    var up, down := UP_0004, DOWN_0004;
    assert UndoesFrom(up[0], 5, down[0], 0, 0, 5);
  }

  lemma Certified0004()
    ensures Rev0004().Forwards(Base(6, [20], [], [], []))
    ensures Rev0004().Restores() && Rev0004().SparesOlderEnums(Base(6, [20], [], [], []))
  {
    Undone0004();
    var up, bs := UP_0004, Bases0004();
    Passed(up[0], 0, 5, bs[0]);
    assert BlocksCertified(UP_0004, 1, Bases0004());
    ForwardsByCheck(Rev0004(), Bases0004(), Base(6, [20], [], [], []));
    RestoresByCheck(Rev0004(), Bases0004(), Base(6, [20], [], [], []));
  }

  lemma Certified0005()
    ensures Rev0005().Forwards(Base(7, [27], [], [], []))
  {
    var up, bs := UP_0005, Bases0005();
    Passed(up[0], 0, 4, bs[0]);
    assert BlocksCertified(UP_0005, 1, Bases0005());
    ForwardsByCheck(Rev0005(), Bases0005(), Base(7, [27], [], [], []));
  }

  lemma Undone0006()
    ensures |UP_0006| == |DOWN_0006| == 1 && BlocksUndone(UP_0006, 1, DOWN_0006)
  {
    var up, down := UP_0006, DOWN_0006;
    assert UndoesFrom(up[0], 1, down[0], 0, 0, 1);
  }

  lemma Certified0006()
    ensures Rev0006().Forwards(Base(7, [31], [], [], []))
    ensures Rev0006().Restores() && Rev0006().SparesOlderEnums(Base(7, [31], [], [], []))
  {
    Undone0006();
    var up, bs := UP_0006, Bases0006();
    Passed(up[0], 0, 1, bs[0]);
    assert BlocksCertified(UP_0006, 1, Bases0006());
    ForwardsByCheck(Rev0006(), Bases0006(), Base(7, [31], [], [], []));
    RestoresByCheck(Rev0006(), Bases0006(), Base(7, [31], [], [], []));
  }

  lemma Undone0007()
    ensures |UP_0007| == |DOWN_0007| == 1 && BlocksUndone(UP_0007, 1, DOWN_0007)
  {
    var up, down := UP_0007, DOWN_0007;
    assert UndoesFrom(up[0], 3, down[0], 0, 0, 3);
  }

  lemma Certified0007()
    ensures Rev0007().Forwards(Base(7, [32], [], [], []))
    ensures Rev0007().Restores() && Rev0007().SparesOlderEnums(Base(7, [32], [], [], []))
  {
    Undone0007();
    var up, bs := UP_0007, Bases0007();
    Passed(up[0], 0, 3, bs[0]);
    assert BlocksCertified(UP_0007, 1, Bases0007());
    ForwardsByCheck(Rev0007(), Bases0007(), Base(7, [32], [], [], []));
    RestoresByCheck(Rev0007(), Bases0007(), Base(7, [32], [], [], []));
  }

  lemma Undone0008()
    ensures |UP_0008| == |DOWN_0008| == 0 && BlocksUndone(UP_0008, 0, DOWN_0008)
  {
  }

  lemma Certified0008()
    ensures Rev0008().Forwards(Base(7, [35], [], [], []))
    ensures Rev0008().Restores() && Rev0008().SparesOlderEnums(Base(7, [35], [], [], []))
  {
    Undone0008();
    assert BlocksCertified(UP_0008, 0, Bases0008());
    ForwardsByCheck(Rev0008(), Bases0008(), Base(7, [35], [], [], []));
    RestoresByCheck(Rev0008(), Bases0008(), Base(7, [35], [], [], []));
  }

  lemma Undone0009()
    ensures |UP_0009| == |DOWN_0009| == 0 && BlocksUndone(UP_0009, 0, DOWN_0009)
  {
  }

  lemma Certified0009()
    ensures Rev0009().Forwards(Base(7, [35], [], [], []))
    ensures Rev0009().Restores() && Rev0009().SparesOlderEnums(Base(7, [35], [], [], []))
  {
    Undone0009();
    assert BlocksCertified(UP_0009, 0, Bases0009());
    ForwardsByCheck(Rev0009(), Bases0009(), Base(7, [35], [], [], []));
    RestoresByCheck(Rev0009(), Bases0009(), Base(7, [35], [], [], []));
  }

  lemma Undone0010()
    ensures |UP_0010| == |DOWN_0010| == 2 && BlocksUndone(UP_0010, 2, DOWN_0010)
  {
    var up, down := UP_0010, DOWN_0010;
    assert UndoesFrom(up[0], 1, down[1], 0, 0, 1);
    assert UndoesFrom(up[1], 2, down[0], 0, 0, 1);
  }

  lemma Certified0010()
    ensures Rev0010().Forwards(Base(7, [35], [], [], []))
    ensures Rev0010().Restores() && Rev0010().SparesOlderEnums(Base(7, [35], [], [], []))
  {
    Undone0010();
    var up, bs := UP_0010, Bases0010();
    Passed(up[0], 0, 1, bs[0]);
    Passed(up[1], 0, 2, bs[1]);
    assert BlocksCertified(UP_0010, 2, Bases0010());
    ForwardsByCheck(Rev0010(), Bases0010(), Base(7, [35], [], [], []));
    RestoresByCheck(Rev0010(), Bases0010(), Base(7, [35], [], [], []));
  }

  lemma Undone0011()
    ensures |UP_0011| == |DOWN_0011| == 1 && BlocksUndone(UP_0011, 1, DOWN_0011)
  {
    var up, down := UP_0011, DOWN_0011;
    assert UndoesFrom(up[0], 2, down[0], 0, 0, 2);
  }

  lemma Certified0011()
    ensures Rev0011().Forwards(Base(8, [36], [], [], []))
    ensures Rev0011().Restores() && Rev0011().SparesOlderEnums(Base(8, [36], [], [], []))
  {
    Undone0011();
    var up, bs := UP_0011, Bases0011();
    Passed(up[0], 0, 2, bs[0]);
    assert BlocksCertified(UP_0011, 1, Bases0011());
    ForwardsByCheck(Rev0011(), Bases0011(), Base(8, [36], [], [], []));
    RestoresByCheck(Rev0011(), Bases0011(), Base(8, [36], [], [], []));
  }
}
