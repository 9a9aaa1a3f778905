/**
  The projection as the page computes it (overlay.ts): copies of the server's maps, changed op by
  op. Where two checked items of a list share a name (an edit can make them, on the page only)
  an add may put back either; otherwise there is one result, the function the proofs use.
 */
module Projection {
  import opened RoomModel
  import opened Texts
  import opened TagRules
  import opened RoomRules
  import P = Overlay

  method RenameItemTags(items: map<Uid, Item>, l: Uid, tag: string, newTag: string) returns (r: map<Uid, Item>)
    ensures r == P.RenameItemTags(items, l, tag, newTag)
  {
    r := items;
    var rest := items.Keys;
    while rest != {}
      invariant rest <= items.Keys && r.Keys == items.Keys
      invariant forall u :: u in items ==>
        r[u] == if u in rest then items[u] else P.RenameItemTags(items, l, tag, newTag)[u]
      decreases |rest|
    {
      var u :| u in rest;
      rest := rest - {u};
      if items[u].list == l && tag in items[u].tags {
        var tags := RenameTags(items[u].tags, tag, newTag);
        r := r[u := items[u].(tags := tags)];
      }
    }
  }

  /** The first tag of the lowest index in the list's tags. */
  method FirstTag(tags: seq<string>, listTags: seq<string>) returns (first: string)
    requires tags != []
    ensures first == First(tags, P.PageRank(listTags))
  {
    first := tags[0];
    for i := 1 to |tags|
      invariant first == First(tags[..i], P.PageRank(listTags))
    {
      assert tags[..i + 1][..i] == tags[..i];
      if IndexRank(listTags, tags[i]) < IndexRank(listTags, first) { first := tags[i]; }
    }
    assert tags[..|tags|] == tags;
  }

  method KeepFirstItemTag(items: map<Uid, Item>, l: Uid, listTags: seq<string>) returns (r: map<Uid, Item>)
    ensures r == P.KeepFirstItemTag(items, l, listTags)
  {
    hide First;
    r := items;
    var rest := items.Keys;
    while rest != {}
      invariant rest <= items.Keys && r.Keys == items.Keys
      invariant forall u :: u in items ==>
        r[u] == if u in rest then items[u] else P.KeepFirstItemTag(items, l, listTags)[u]
      decreases |rest|
    {
      var u :| u in rest;
      rest := rest - {u};
      if items[u].list == l && |items[u].tags| >= 2 {
        var first := FirstTag(items[u].tags, listTags);
        r := r[u := items[u].(tags := [first])];
      }
    }
  }

  method RemoveList(items: map<Uid, Item>, l: Uid) returns (r: map<Uid, Item>)
    ensures r == map u | u in items && items[u].list != l :: items[u]
  {
    r := items;
    var rest := items.Keys;
    while rest != {}
      invariant rest <= items.Keys && r == map u | u in items && (u in rest || items[u].list != l) :: items[u]
      decreases |rest|
    {
      var u :| u in rest;
      rest := rest - {u};
      if items[u].list == l { r := r - {u}; }
    }
  }

  /** The items of the list with this name. */
  method SameNames(items: map<Uid, Item>, l: Uid, key: string) returns (same: set<Uid>)
    ensures same == set u | u in items && P.SameName(items, u, l, key)
    ensures (same != {} <==> P.NameUsed(items, l, key))
      && ((exists u :: u in same && !items[u].done) <==> P.NameOpen(items, l, key))
  {
    same := {};
    var rest := items.Keys;
    while rest != {}
      invariant rest <= items.Keys && same == set u | u in items && u !in rest && P.SameName(items, u, l, key)
      decreases |rest|
    {
      var u :| u in rest;
      rest := rest - {u};
      if items[u].list == l && NameKey(items[u].name) == key { same := same + {u}; }
    }
    if P.NameUsed(items, l, key) {
      var u :| u in items && P.SameName(items, u, l, key);
      assert u in same;
    }
    if P.NameOpen(items, l, key) {
      var u :| u in items && P.SameName(items, u, l, key) && !items[u].done;
      assert u in same;
    }
  }

  function PutBack(row: Item, at: Time): Item {
    row.(done := false, completedAt := None, addCount := row.addCount + 1, addedAt := Some(at))
  }

  /** An add puts back one of the checked items of the name, unless an open one has it. */
  ghost predicate PutsBack(v: View, l: Uid, raw: string, at: Time, r: View) {
    exists u | u in v.items ::
      P.SameName(v.items, u, l, NameKey(Strip(raw))) && r == v.(items := v.items[u := PutBack(v.items[u], at)])
  }

  predicate NameChecked(v: View, l: Uid, raw: string) {
    P.NameUsed(v.items, l, NameKey(Strip(raw))) && !P.NameOpen(v.items, l, NameKey(Strip(raw)))
  }

  /** `r` is what one op can make of the view. */
  ghost predicate Shows(v: View, op: Op, at: Time, r: View) {
    if op.ItemAdd? && NameChecked(v, op.list, op.name) then PutsBack(v, op.list, op.name, at, r)
    else r == P.Project(v, op, at)
  }

  method ProjectAdd(v: View, l: Uid, raw: string, uid: Option<Uid>, at: Time) returns (r: View)
    ensures Shows(v, ItemAdd(l, raw, uid), at, r)
  {
    hide Strip;
    var name := TrimItemName(raw);
    var key := NameKey(name);
    var same := SameNames(v.items, l, key);
    if exists u | u in same :: !v.items[u].done { return v; }
    if same != {} {
      var u :| u in same;
      return v.(items := v.items[u := PutBack(v.items[u], at)]);
    }
    if uid.None? || l !in v.lists || uid.value in v.items { return v; }
    return v.(items := v.items[uid.value := P.NewRow(l, name).(addedAt := Some(at))]);
  }

  method ProjectRestore(v: View, op: Op) returns (r: View)
    requires op.ItemRestore?
    ensures r == P.ProjectRestore(v, op)
  {
    var name := TrimItemName(op.name);
    if op.uid.None? || op.list !in v.lists || op.uid.value in v.items { return v; }
    var same := SameNames(v.items, op.list, NameKey(name));
    if same != {} { return v; }
    return v.(items := v.items[op.uid.value := P.RestoredRow(op)]);
  }

  /** One op on the copies. */
  method ProjectOp(v: View, op: Op, at: Time) returns (r: View)
    ensures Shows(v, op, at, r)
  {
    match op {
      case RoomRename(name) => r := v.(name := JsTrim(name));
      case ListCreate(_, _) => r := v;
      case ItemAdd(l, name, uid) => r := ProjectAdd(v, l, name, uid, at);
      case ItemRestore(_, _, _, _, _, _, _, _, _, _, _) => r := ProjectRestore(v, op);
      case ItemDelete(l, u) => r := if u in v.items && v.items[u].list == l then v.(items := v.items - {u}) else v;
      case ListDelete(l) =>
        if l !in v.lists { return v; }
        var items := RemoveList(v.items, l);
        r := v.(lists := v.lists - {l}, items := items);
      case ListTagSettings(l, _, _, _) =>
        if l !in v.lists { return v; }
        var next := P.ListAfter(v.lists[l], op);
        var items := v.items;
        if next.settings.mode == Single && v.lists[l].settings.mode != Single {
          items := KeepFirstItemTag(items, l, next.tags);
        }
        r := v.(lists := v.lists[l := next], items := items);
      case ListTagRename(l, tag, newTag) =>
        if l !in v.lists { return v; }
        var renamed := P.RenamedList(v.lists[l], tag, newTag);
        if renamed.None? { return v; }
        var items := RenameItemTags(v.items, l, tag, JsTrim(newTag));
        r := v.(lists := v.lists[l := renamed.value], items := items);
      case ListRename(l, _, _) => r := P.ProjectOnList(v, l, op);
      case ListTagAdd(l, _) => r := P.ProjectOnList(v, l, op);
      case ListTagRemove(l, _) => r := P.ProjectOnList(v, l, op);
      case ListTagColor(l, _, _) => r := P.ProjectOnList(v, l, op);
      case ListVisibility(l, _, _, _) => r := P.ProjectOnList(v, l, op);
      case ItemSetDone(l, u, _, _) => r := P.ProjectOnItem(v, l, u, op, at);
      case ItemQuantityDelta(l, u, _) => r := P.ProjectOnItem(v, l, u, op, at);
      case ItemEdit(l, u, _, _, _, _, _, _, _) => r := P.ProjectOnItem(v, l, u, op, at);
      case ItemToggleTag(l, u, _, _) => r := P.ProjectOnItem(v, l, u, op, at);
    }
  }

  ghost predicate OneShows(before: View, p: P.PendingOp, after: View) {
    if P.Skipped(p) then after == before else Shows(before, p.sent.op, p.at, after)
  }

  /** The views that the pending ops, one after another, can make of the first. */
  ghost predicate AllShow(pending: seq<P.PendingOp>, views: seq<View>) {
    |views| == |pending| + 1 && forall i :: 0 <= i < |pending| ==> OneShows(views[i], pending[i], views[i + 1])
  }

  lemma OneChecked(v: View, l: Uid, key: string, u: Uid)
    requires UniqueNames(v.items) && P.NameUsed(v.items, l, key) && P.SameName(v.items, u, l, key)
    ensures u == P.CheckedItem(v.items, l, key)
  {
  }

  /** With unique names one op makes one thing of a view: what the proofs project. */
  lemma OneResult(v: View, op: Op, at: Time, r: View)
    requires UniqueNames(v.items)
    ensures Shows(v, op, at, r) <==> r == P.Project(v, op, at)
  {
    hide UniqueNames, Strip, P.ProjectRestore, P.ProjectTagSettings, P.ProjectTagRename, P.ProjectOnList,
      P.ProjectOnItem;
    if op.ItemAdd? && NameChecked(v, op.list, op.name) {
      var key := NameKey(Strip(op.name));
      hide P.NameUsed, P.NameOpen;
      forall u | u in v.items && P.SameName(v.items, u, op.list, key)
        ensures u == P.CheckedItem(v.items, op.list, key)
      {
        OneChecked(v, op.list, key, u);
      }
    }
  }

  /** No two items of a list share a name, at any step of the projection. */
  ghost predicate NamesStayUnique(v: View, pending: seq<P.PendingOp>) {
    forall i :: 0 <= i <= |pending| ==> UniqueNames(P.ProjectAll(v, pending[..i]).items)
  }

  lemma {:induction false} AllOneResult(pending: seq<P.PendingOp>, views: seq<View>, n: nat)
    requires AllShow(pending, views) && NamesStayUnique(views[0], pending) && n <= |pending|
    ensures views[n] == P.ProjectAll(views[0], pending[..n])
    decreases n
  {
    hide P.Project, Shows, UniqueNames;
    if n > 0 {
      var p := pending[n - 1];
      AllOneResult(pending, views, n - 1);
      assert OneShows(views[n - 1], p, views[n]);
      OneResult(views[n - 1], p.sent.op, p.at, views[n]);
      assert pending[..n][..n - 1] == pending[..n - 1];
    }
  }

  /**
    The page's `project`: the pending ops in order, then the versions of answered rows. While names
    are unique that is what the proofs project.
   */
  method Project(server: View, pending: seq<P.PendingOp>, answered: seq<P.AnsweredSeq>) returns (v: View)
    ensures exists views ::
      AllShow(pending, views) && views[0] == server && v == P.ShowAnswers(views[|pending|], answered)
    ensures NamesStayUnique(server, pending) ==> v == P.ShowAnswers(P.ProjectAll(server, pending), answered)
  {
    hide Shows, UniqueNames, P.ProjectAll, NamesStayUnique, P.Project;
    v := server;
    ghost var views := [v];
    for i := 0 to |pending|
      invariant |views| == i + 1 && views[0] == server && views[i] == v
      invariant forall k :: 0 <= k < i ==> OneShows(views[k], pending[k], views[k + 1])
    {
      if !(pending[i].uncertain && P.CountsTwice(pending[i].sent.op)) {
        v := ProjectOp(v, pending[i].sent.op, pending[i].at);
      }
      views := views + [v];
    }
    if NamesStayUnique(server, pending) { AllOneResult(pending, views, |pending|); }
    assert pending[..|pending|] == pending && AllShow(pending, views);
    ghost var projected := v;
    for i := 0 to |answered|
      invariant v == P.ShowAnswers(projected, answered[..i])
    {
      assert answered[..i + 1][..i] == answered[..i];
      v := P.ShowAnswer(v, answered[i]);
    }
    assert answered[..|answered|] == answered;
  }
}
