/** Revision 0023 on the rows of syllabi: two statuses renamed by UPDATE statements, in place. */
module StatusRename {

  function Renamed(rows: seq<string>, from: string, to_: string): (r: seq<string>)
    ensures |r| == |rows|
  {
    seq(|rows|, i requires 0 <= i < |rows| => if rows[i] == from then to_ else rows[i])
  }

  /** UPDATE syllabi SET status = to_ WHERE status = from. */
  method UpdateStatus(rows: array<string>, from: string, to_: string)
    modifies rows
    ensures rows[..] == Renamed(old(rows[..]), from, to_)
    ensures forall i | 0 <= i < rows.Length :: rows[i] == if old(rows[i]) == from then to_ else old(rows[i])
  {
    var i := 0;
    while i < rows.Length
      invariant 0 <= i <= rows.Length
      invariant forall k | 0 <= k < i :: rows[k] == Renamed(old(rows[..]), from, to_)[k]
      invariant forall k | i <= k < rows.Length :: rows[k] == old(rows[k])
    {
      if rows[i] == from {
        rows[i] := to_;
      }
      i := i + 1;
    }
  }

  function Upgraded(rows: seq<string>): seq<string> {
    Renamed(Renamed(rows, "FACULTY_APPROVED", "DEAN_APPROVED"), "ADMIN_LOCKED", "DEAN_LOCKED")
  }

  function Downgraded(rows: seq<string>): seq<string> {
    Renamed(Renamed(rows, "DEAN_APPROVED", "FACULTY_APPROVED"), "DEAN_LOCKED", "ADMIN_LOCKED")
  }

  method Upgrade(rows: array<string>)
    modifies rows
    ensures rows[..] == Upgraded(old(rows[..]))
    ensures forall i | 0 <= i < rows.Length ::
      rows[i] == if old(rows[i]) == "FACULTY_APPROVED" then "DEAN_APPROVED"
                 else if old(rows[i]) == "ADMIN_LOCKED" then "DEAN_LOCKED"
                 else old(rows[i])
  {
    DistinctNames();
    UpdateStatus(rows, "FACULTY_APPROVED", "DEAN_APPROVED");
    UpdateStatus(rows, "ADMIN_LOCKED", "DEAN_LOCKED");
  }

  method Downgrade(rows: array<string>)
    modifies rows
    ensures rows[..] == Downgraded(old(rows[..]))
    ensures forall i | 0 <= i < rows.Length ::
      rows[i] == if old(rows[i]) == "DEAN_APPROVED" then "FACULTY_APPROVED"
                 else if old(rows[i]) == "DEAN_LOCKED" then "ADMIN_LOCKED"
                 else old(rows[i])
  {
    DistinctNames();
    UpdateStatus(rows, "DEAN_APPROVED", "FACULTY_APPROVED");
    UpdateStatus(rows, "DEAN_LOCKED", "ADMIN_LOCKED");
  }

  lemma DistinctNames()
    ensures "FACULTY_APPROVED" != "DEAN_APPROVED" && "ADMIN_LOCKED" != "DEAN_LOCKED"
    ensures "FACULTY_APPROVED" != "DEAN_LOCKED" && "ADMIN_LOCKED" != "DEAN_APPROVED"
    ensures "FACULTY_APPROVED" != "ADMIN_LOCKED" && "DEAN_APPROVED" != "DEAN_LOCKED"
  {
    assert "FACULTY_APPROVED"[0] == 'F' && "ADMIN_LOCKED"[0] == 'A' && "DEAN_APPROVED"[0] == 'D'
        && "DEAN_LOCKED"[0] == 'D';
    assert |"DEAN_APPROVED"| == 13 && |"DEAN_LOCKED"| == 11;
  }

  /** The downgrade gives every row its status back exactly if no row held one of the new names before. */
  lemma RestoredExactly(rows: seq<string>)
    ensures Downgraded(Upgraded(rows)) == rows <==> "DEAN_APPROVED" !in rows && "DEAN_LOCKED" !in rows
  {
    DistinctNames();
    var back := Downgraded(Upgraded(rows));
    forall i | 0 <= i < |rows|
      ensures back[i] == rows[i] <==> rows[i] != "DEAN_APPROVED" && rows[i] != "DEAN_LOCKED"
    {
    }
    if back == rows {
      assert forall i | 0 <= i < |rows| :: back[i] == rows[i];
    }
  }

  /** The other way round: an upgrade after a downgrade restores the rows exactly if none held an old name. */
  lemma RedoneExactly(rows: seq<string>)
    ensures Upgraded(Downgraded(rows)) == rows <==> "FACULTY_APPROVED" !in rows && "ADMIN_LOCKED" !in rows
  {
    DistinctNames();
    var again := Upgraded(Downgraded(rows));
    forall i | 0 <= i < |rows|
      ensures again[i] == rows[i] <==> rows[i] != "FACULTY_APPROVED" && rows[i] != "ADMIN_LOCKED"
    {
    }
    if again == rows {
      assert forall i | 0 <= i < |rows| :: again[i] == rows[i];
    }
  }
}
