/** The seq of one list, as its share link reports it (get_share_seq_locked). */
module ShareSeqs {
  import opened RoomModel
  import opened Tracking

  ghost function ItemSeqs(db: Db, l: Uid): set<nat> {
    set u | u in db.items && db.items[u].list == l :: db.items[u].changedSeq
  }

  ghost function DeletionSeqs(db: Db, l: Uid): set<nat> {
    set d | d in db.deletions && d.list == l :: d.changedSeq
  }

  /** The list row, its items, its deletion records, and the floor of the pruned ones. */
  ghost function ShareSeq(db: Db, l: Uid): nat
    requires l in db.lists
  {
    MaxSeq({db.lists[l].changedSeq} + ItemSeqs(db, l) + DeletionSeqs(db, l) + if l in db.floors then {db.floors[l]}
      else {})
  }

  lemma MaxSeqIs(s: set<nat>, m: nat)
    requires (forall x :: x in s ==> x <= m) && (m == 0 || m in s)
    ensures MaxSeq(s) == m
  {
  }

  /** The statement changes the list or its items. */
  predicate Touches(db: Db, s: Stmt, l: Uid) {
    match s
    case PutListS(u, _) => u == l
    case PutItemS(_, row) => row.list == l
    case DropItemS(u, _) => u in db.items && db.items[u].list == l
    case _ => false
  }

  lemma ShareSeqBound(db: Db, l: Uid)
    requires Tracked(db) && l in db.lists
    ensures ShareSeq(db, l) <= db.changeSeq
  {
  }

  lemma TouchedMoves(db: Db, s: Stmt, l: Uid)
    requires Tracked(db) && Allowed(db, s) && Touches(db, s, l) && l in Exec(db, s).lists
    ensures ShareSeq(Exec(db, s), l) == Exec(db, s).changeSeq
  {
    var b := Exec(db, s);
    ExecTracked(db, s);
    ShareSeqBound(b, l);
    match s {
      case PutListS(u, _) => assert b.changeSeq == b.lists[l].changedSeq;
      case PutItemS(u, _) => assert b.changeSeq == b.items[u].changedSeq && b.changeSeq in ItemSeqs(b, l);
      case DropItemS(u, now) =>
        assert Deletion(ItemKind, u, l, b.changeSeq, now) in b.deletions;
        assert b.changeSeq in DeletionSeqs(b, l);
    }
    MaxSeqIs({b.lists[l].changedSeq} + ItemSeqs(b, l) + DeletionSeqs(b, l) + if l in b.floors then {b.floors[l]}
      else {}, b.changeSeq);
  }

  lemma PruneKeeps(db: Db, upTo: nat, l: Uid)
    requires l in db.lists
    ensures ShareSeq(Prune(db, upTo), l) == ShareSeq(db, l)
  {
    var b := Prune(db, upTo);
    var pruned := (set d | d in db.deletions && d.list == l && d.changedSeq <= upTo :: d.changedSeq)
                  + if l in db.floors then {db.floors[l]} else {};
    var before := {db.lists[l].changedSeq} + ItemSeqs(db, l) + DeletionSeqs(db, l) + if l in db.floors
        then {db.floors[l]} else {};
    var after := {b.lists[l].changedSeq} + ItemSeqs(b, l) + DeletionSeqs(b, l) + if l in b.floors then {b.floors[l]}
        else {};
    assert Floor(db, l, upTo) == MaxSeq(pruned);
    assert ItemSeqs(b, l) == ItemSeqs(db, l);
    forall d | d in db.deletions && d.list == l ensures d.changedSeq in pruned || d.changedSeq in after {
      if d.changedSeq > upTo { assert d in b.deletions && d.changedSeq in DeletionSeqs(b, l); }
    }
    forall x | x in before ensures x in pruned || x in after {
      if x in DeletionSeqs(db, l) { var d :| d in db.deletions && d.list == l && d.changedSeq == x; }
    }
    forall x | x in after ensures x in before || x == MaxSeq(pruned) {
      if x in DeletionSeqs(b, l) { assert x in DeletionSeqs(db, l); }
    }
    assert pruned <= before;
    MaxOfParts(before, after, pruned);
  }

  lemma MaxOfParts(before: set<nat>, after: set<nat>, pruned: set<nat>)
    requires pruned <= before && (forall x :: x in before ==> x in pruned || x in after)
    requires (forall x :: x in after ==> x in before || x == MaxSeq(pruned))
      && (MaxSeq(pruned) > 0 ==> MaxSeq(pruned) in after)
    ensures MaxSeq(after) == MaxSeq(before)
  {
    MaxSeqIs(after, MaxSeq(before));
  }

  lemma UntouchedStays(db: Db, s: Stmt, l: Uid)
    requires Tracked(db) && Allowed(db, s) && l in db.lists && l in Exec(db, s).lists && !Touches(db, s, l)
    ensures ShareSeq(Exec(db, s), l) == ShareSeq(db, l)
  {
    var b := Exec(db, s);
    if s.PruneS? {
      PruneKeeps(db, s.upTo, l);
    } else {
      assert b.lists[l] == db.lists[l] && b.floors == db.floors;
      assert ItemSeqs(b, l) == ItemSeqs(db, l) by {
        forall x ensures x in ItemSeqs(b, l) <==> x in ItemSeqs(db, l) {
          if x in ItemSeqs(db, l) {
            var u :| u in db.items && db.items[u].list == l && db.items[u].changedSeq == x;
            assert u in b.items && b.items[u] == db.items[u];
          }
          if x in ItemSeqs(b, l) {
            var u :| u in b.items && b.items[u].list == l && b.items[u].changedSeq == x;
            assert u in db.items && b.items[u] == db.items[u];
          }
        }
      }
      assert DeletionSeqs(b, l) == DeletionSeqs(db, l);
    }
  }

  /** A statement moves the list's seq exactly when it changes the list or its items, and then upwards. */
  lemma ShareSeqStep(db: Db, s: Stmt, l: Uid)
    requires Tracked(db) && Allowed(db, s) && l in db.lists && l in Exec(db, s).lists
    ensures Touches(db, s, l) ==> ShareSeq(Exec(db, s), l) > ShareSeq(db, l)
    ensures !Touches(db, s, l) ==> ShareSeq(Exec(db, s), l) == ShareSeq(db, l)
  {
    if Touches(db, s, l) {
      TouchedMoves(db, s, l);
      ShareSeqBound(db, l);
      ExecTracked(db, s);
    } else {
      UntouchedStays(db, s, l);
    }
  }

  lemma {:induction false} NeverBelow(db: Db, run: seq<Stmt>, l: Uid, n: nat)
    requires Tracked(db) && RunAllowed(db, run) && n <= db.changeSeq && (l in db.lists ==> n <= ShareSeq(db, l))
    ensures l in Run(db, run).lists ==> n <= ShareSeq(Run(db, run), l)
    decreases |run|
  {
    if run != [] {
      var b := Exec(db, run[0]);
      ExecTracked(db, run[0]);
      if l in b.lists {
        if l in db.lists { ShareSeqStep(db, run[0], l); } else { TouchedMoves(db, run[0], l); }
      }
      NeverBelow(b, run[1..], l, n);
    }
  }

  /**
    Over any history the list's seq never goes down: not by pruning, and not when the list is
    deleted and its ID is taken again.
   */
  lemma ShareSeqMonotone(db: Db, run: seq<Stmt>, l: Uid)
    requires Tracked(db) && RunAllowed(db, run) && l in db.lists && l in Run(db, run).lists
    ensures ShareSeq(db, l) <= ShareSeq(Run(db, run), l)
  {
    ShareSeqBound(db, l);
    NeverBelow(db, run, l, ShareSeq(db, l));
  }
}
