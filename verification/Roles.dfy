/** Role discovery over several sources: which of the roles found under one id is offered, and which are duplicates. */
module RoleDiscovery {
  import opened Text
  import opened Ordering

  /** A role that was found and could be read; the path is given by its components. */
  datatype SourceRole = SourceRole(source: string, id: string, version: string, path: seq<string>)

  /** How a duplicate is reported. */
  datatype Label = Label(source: string, path: seq<string>)

  datatype Discovered = Discovered(role: SourceRole, duplicates: seq<Label>)

  function LabelOf(r: SourceRole): Label { Label(r.source, r.path) }

  /** The nearest component, from the end, that is a catalog directory. */
  function CatalogBase(path: seq<string>): string {
    if path == [] then ""
    else
      var last := path[|path| - 1];
      if last == "roles" || last == "reference_roles" then last else CatalogBase(path[..|path| - 1])
  }

  predicate ReferenceUpgrade(existing: SourceRole, candidate: SourceRole) {
    && existing.source == candidate.source
    && CatalogBase(existing.path) == "reference_roles" && CatalogBase(candidate.path) == "roles"
  }

  predicate IsCatalog(name: string) { name == "roles" || name == "reference_roles" }

  /** `dir` is the catalog directory that is nearest to the role. */
  predicate LiesIn(path: seq<string>, dir: string) {
    exists i ::
      0 <= i < |path| && path[i] == dir && IsCatalog(dir) && forall j :: i < j < |path| ==> !IsCatalog(path[j])
  }

  lemma {:induction false} CatalogIsNearest(path: seq<string>, dir: string)
    requires IsCatalog(dir)
    ensures CatalogBase(path) == dir <==> LiesIn(path, dir)
    decreases |path|
  {
    hide LiesIn;
    if path == [] {
      LiesNowhere(dir);
    } else {
      LiesSnoc(path, dir);
      if !IsCatalog(path[|path| - 1]) { CatalogIsNearest(path[..|path| - 1], dir); }
    }
  }

  lemma LiesNowhere(dir: string)
    ensures !LiesIn([], dir)
  {}

  lemma LiesSnoc(path: seq<string>, dir: string)
    requires path != [] && IsCatalog(dir)
    ensures LiesIn(path, dir) <==>
      if IsCatalog(path[|path| - 1]) then path[|path| - 1] == dir else LiesIn(path[..|path| - 1], dir)
  {
    hide IsCatalog;
    var init := path[..|path| - 1];
    assert forall i :: 0 <= i < |init| ==> init[i] == path[i];
    if LiesIn(init, dir) && !IsCatalog(path[|path| - 1]) {
      var i :| 0 <= i < |init| && init[i] == dir && forall j :: i < j < |init| ==> !IsCatalog(init[j]);
      assert path[i] == dir;
    }
    if LiesIn(path, dir) && !IsCatalog(path[|path| - 1]) {
      var i :| 0 <= i < |path| && path[i] == dir && forall j :: i < j < |path| ==> !IsCatalog(path[j]);
      assert init[i] == dir;
    }
  }

  // ---- The simple specification: one id at a time ----

  /** The roles found under `id`, in scan order. */
  function Occurrences(found: seq<SourceRole>, id: string): seq<SourceRole> {
    if found == [] then []
    else
      var last := found[|found| - 1];
      Occurrences(found[..|found| - 1], id) + if last.id == id then [last] else []
  }

  /** The first role of `occ` that upgrades `first`, or its length. */
  function FirstUpgrade(first: SourceRole, occ: seq<SourceRole>): (k: nat)
    ensures k <= |occ|
    ensures k < |occ| ==> ReferenceUpgrade(first, occ[k])
    ensures forall j :: 0 <= j < k ==> !ReferenceUpgrade(first, occ[j])
  {
    if occ == [] || ReferenceUpgrade(first, occ[0]) then 0 else FirstUpgrade(first, occ[1..]) + 1
  }

  /** The first occurrence, unless it is a reference role that a later `roles` entry of the same source replaces. */
  function Winner(occ: seq<SourceRole>): SourceRole
    requires occ != []
  {
    var k := FirstUpgrade(occ[0], occ);
    if k < |occ| then occ[k] else occ[0]
  }

  /** The others in the order they are reported: at the upgrade, the first occurrence takes the winner's place. */
  function Losers(occ: seq<SourceRole>): seq<SourceRole>
    requires occ != []
  {
    var k := FirstUpgrade(occ[0], occ);
    if k < |occ| then (if k == 0 then occ else occ[k := occ[0]])[1..] else occ[1..]
  }

  function Labels(roles: seq<SourceRole>): seq<Label> {
    seq(|roles|, i requires 0 <= i < |roles| => LabelOf(roles[i]))
  }

  // ---- The scan ----

  /** The maps kept while scanning describe what was seen under `id`. */
  predicate DescribesId(discovered: map<string, SourceRole>, duplicates: map<string, seq<Label>>, occ: seq<SourceRole>,
                        id: string)
  {
    if occ == [] then id !in discovered && id !in duplicates
    else
      && id in discovered && discovered[id] == Winner(occ)
      && DuplicatesOf(duplicates, id) == Labels(Losers(occ))
  }

  ghost predicate Describes(discovered: map<string, SourceRole>, duplicates: map<string, seq<Label>>,
                            seen: seq<SourceRole>)
  {
    forall id :: DescribesId(discovered, duplicates, Occurrences(seen, id), id)
  }

  function DuplicatesOf(duplicates: map<string, seq<Label>>, id: string): seq<Label> {
    if id in duplicates then duplicates[id] else []
  }

  lemma {:induction false} OccurrencesHaveId(found: seq<SourceRole>, id: string)
    ensures forall i :: 0 <= i < |Occurrences(found, id)| ==> Occurrences(found, id)[i].id == id
  {
    if found != [] { OccurrencesHaveId(found[..|found| - 1], id); }
  }

  lemma {:induction false} FirstUpgradeSnoc(first: SourceRole, occ: seq<SourceRole>, r: SourceRole)
    ensures FirstUpgrade(first, occ + [r]) ==
            if FirstUpgrade(first, occ) < |occ| then FirstUpgrade(first, occ)
            else if ReferenceUpgrade(first, r) then |occ| else |occ| + 1
  {
    hide ReferenceUpgrade;
    if occ == [] {
      assert [] + [r] == [r] && [r][1..] == [];
    } else {
      ConcatTail(occ, [r]);
      FirstUpgradeSnoc(first, occ[1..], r);
    }
  }

  /** Scanning one more role under an id: the winner changes at most once, and the loser is recorded. */
  lemma ScanOneMore(occ: seq<SourceRole>, r: SourceRole)
    requires occ != []
    ensures var w := Winner(occ);
      && Winner(occ + [r]) == (if ReferenceUpgrade(w, r) then r else w)
      && Losers(occ + [r]) == Losers(occ) + [if ReferenceUpgrade(w, r) then w else r]
  {
    hide CatalogBase, FirstUpgrade;
    var all, first := occ + [r], occ[0];
    var k := FirstUpgrade(first, occ);
    FirstUpgradeSnoc(first, occ, r);
    assert all[0] == first && !ReferenceUpgrade(first, first);
    if k < |occ| {
      assert all[k := first][1..] == occ[k := first][1..] + [r];
    } else if ReferenceUpgrade(first, r) {
      assert all[|occ| := first][1..] == occ[1..] + [first];
    } else {
      assert all[1..] == occ[1..] + [r];
    }
  }

  lemma LabelsSnoc(roles: seq<SourceRole>, r: SourceRole)
    ensures Labels(roles + [r]) == Labels(roles) + [LabelOf(r)]
  {}

  /** The maps after one more role, as the loop body updates them. */
  function ScanDiscovered(discovered: map<string, SourceRole>, r: SourceRole): map<string, SourceRole> {
    if r.id in discovered && !ReferenceUpgrade(discovered[r.id], r) then discovered else discovered[r.id := r]
  }

  function ScanDuplicates(discovered: map<string, SourceRole>, duplicates: map<string, seq<Label>>, r: SourceRole)
    : map<string, seq<Label>>
  {
    if r.id !in discovered then duplicates
    else
      var loser := if ReferenceUpgrade(discovered[r.id], r) then discovered[r.id] else r;
      duplicates[r.id := DuplicatesOf(duplicates, r.id) + [LabelOf(loser)]]
  }

  lemma DescribesOneMore(discovered: map<string, SourceRole>, duplicates: map<string, seq<Label>>,
                         seen: seq<SourceRole>, r: SourceRole)
    requires Describes(discovered, duplicates, seen)
    ensures Describes(ScanDiscovered(discovered, r), ScanDuplicates(discovered, duplicates, r), seen + [r])
  {
    hide CatalogBase, Winner, Losers, Labels, DescribesId, ReferenceUpgrade;
    assert (seen + [r])[..|seen|] == seen;
    forall id
      ensures DescribesId(ScanDiscovered(discovered, r), ScanDuplicates(discovered, duplicates, r),
                          Occurrences(seen + [r], id), id)
    {
      assert DescribesId(discovered, duplicates, Occurrences(seen, id), id);
      DescribesIdOneMore(discovered, duplicates, Occurrences(seen, id), id, r);
    }
  }

  lemma DescribesIdOneMore(discovered: map<string, SourceRole>, duplicates: map<string, seq<Label>>,
                           occ: seq<SourceRole>, id: string, r: SourceRole)
    requires DescribesId(discovered, duplicates, occ, id)
    ensures DescribesId(ScanDiscovered(discovered, r), ScanDuplicates(discovered, duplicates, r),
                        occ + if r.id == id then [r] else [], id)
  {
    hide CatalogBase, Winner, Losers, Labels, ReferenceUpgrade;
    if r.id != id {
      assert occ + [] == occ;
    } else if occ == [] {
      assert [] + [r] == [r];
      SingleOccurrence(r);
    } else {
      ScanOneMore(occ, r);
      LabelsSnoc(Losers(occ), if ReferenceUpgrade(Winner(occ), r) then Winner(occ) else r);
    }
  }

  lemma SingleOccurrence(r: SourceRole)
    ensures Winner([r]) == r && Labels(Losers([r])) == []
  {}

  predicate SortedById(roles: seq<Discovered>) {
    forall i, j :: 0 <= i < j < |roles| ==> StringLess(roles[i].role.id, roles[j].role.id)
  }

  function Ids(roles: seq<Discovered>): set<string> { set d | d in roles :: d.role.id }

  /** What follows the insertion point comes after `d`. */
  lemma ComesAfter(roles: seq<Discovered>, i: nat, d: Discovered)
    requires SortedById(roles) && d.role.id !in Ids(roles)
    requires i < |roles| ==> !StringLess(roles[i].role.id, d.role.id)
    ensures forall k :: i <= k < |roles| ==> StringLess(d.role.id, roles[k].role.id)
  {
    hide Less;
    if i < |roles| {
      var mine, next := d.role.id, roles[i].role.id;
      assert next in Ids(roles);
      if Codes(mine) == Codes(next) { CodesInjective(mine, next); }
      Trichotomy(Codes(mine), Codes(next));
      forall k | i < k < |roles| ensures StringLess(mine, roles[k].role.id) {
        LessTransitive(Codes(mine), Codes(next), Codes(roles[k].role.id));
      }
    }
  }

  lemma InsertedIsSorted(roles: seq<Discovered>, i: nat, d: Discovered)
    requires SortedById(roles) && i <= |roles|
    requires forall k :: 0 <= k < i ==> StringLess(roles[k].role.id, d.role.id)
    requires forall k :: i <= k < |roles| ==> StringLess(d.role.id, roles[k].role.id)
    ensures SortedById(roles[..i] + [d] + roles[i..])
  {
    hide StringLess;
    var r := roles[..i] + [d] + roles[i..];
    assert forall k :: 0 <= k < |r| ==> r[k] == if k < i then roles[k] else if k == i then d else roles[k - 1];
  }

  /** The place of `d` in a list sorted by id. */
  method InsertById(roles: seq<Discovered>, d: Discovered) returns (r: seq<Discovered>)
    requires SortedById(roles) && d.role.id !in Ids(roles)
    ensures SortedById(r) && multiset(r) == multiset(roles) + multiset{d}
  {
    hide StringLess, SortedById;
    var i := 0;
    while i < |roles| && StringLess(roles[i].role.id, d.role.id)
      invariant i <= |roles|
      invariant forall k :: 0 <= k < i ==> StringLess(roles[k].role.id, d.role.id)
    {
      i := i + 1;
    }
    ComesAfter(roles, i, d);
    InsertedIsSorted(roles, i, d);
    InsertedMembers(roles, i, d);
    r := roles[..i] + [d] + roles[i..];
  }

  lemma InsertedMembers(roles: seq<Discovered>, i: nat, d: Discovered)
    requires i <= |roles|
    ensures multiset(roles[..i] + [d] + roles[i..]) == multiset(roles) + multiset{d}
  {
    assert roles == roles[..i] + roles[i..];
  }

  predicate IsEntry(d: Discovered, discovered: map<string, SourceRole>, duplicates: map<string, seq<Label>>) {
    d.role.id in discovered && d == Discovered(discovered[d.role.id], DuplicatesOf(duplicates, d.role.id))
  }

  /** The scan: for every id the winner so far and the labels of the others. */
  method ScanRoles(found: seq<SourceRole>)
    returns (discovered: map<string, SourceRole>, duplicates: map<string, seq<Label>>)
    ensures Describes(discovered, duplicates, found)
  {
    hide CatalogBase, Winner, Losers, Labels, ReferenceUpgrade, DescribesId;
    discovered, duplicates := map[], map[];
    assert found[..0] == [];
    NothingDescribed();
    for i := 0 to |found|
      invariant Describes(discovered, duplicates, found[..i])
    {
      var r := found[i];
      assert found[..i + 1] == found[..i] + [r];
      DescribesOneMore(discovered, duplicates, found[..i], r);
      if r.id in discovered {
        var w, dups := discovered[r.id], DuplicatesOf(duplicates, r.id);
        if ReferenceUpgrade(w, r) {
          duplicates := duplicates[r.id := dups + [LabelOf(w)]];
          discovered := discovered[r.id := r];
        } else {
          duplicates := duplicates[r.id := dups + [LabelOf(r)]];
        }
      } else {
        discovered := discovered[r.id := r];
      }
    }
    assert found[..|found|] == found;
  }

  /** `discover_roles_from_sources` over the roles found, in scan order: for every id the winner with the labels of all
      other occurrences, sorted by id. */
  method DiscoverRoles(found: seq<SourceRole>) returns (roles: seq<Discovered>)
    ensures SortedById(roles)
    ensures forall d :: d in roles ==>
      var occ := Occurrences(found, d.role.id);
      occ != [] && d == Discovered(Winner(occ), Labels(Losers(occ)))
    ensures forall r :: r in found ==> r.id in Ids(roles)
  {
    hide Winner, Losers, Labels, Occurrences, DuplicatesOf, StringLess, Describes, SortedById, Ids;
    var discovered, duplicates := ScanRoles(found);
    roles := [];
    NothingSorted();
    var todo := discovered.Keys;
    while todo != {}
      invariant todo <= discovered.Keys
      invariant SortedById(roles) && Ids(roles) == discovered.Keys - todo
      invariant forall d :: d in roles ==> IsEntry(d, discovered, duplicates)
      decreases |todo|
    {
      var id :| id in todo;
      FiledUnderId(discovered, duplicates, found, id);
      var d := Discovered(discovered[id], DuplicatesOf(duplicates, id));
      ghost var before := roles;
      roles := InsertById(roles, d);
      MultisetMembers(before, d, roles);
      todo := todo - {id};
    }
    EntriesDescribe(roles, discovered, duplicates, found);
  }

  lemma FiledUnderId(discovered: map<string, SourceRole>, duplicates: map<string, seq<Label>>, found: seq<SourceRole>,
                     id: string)
    requires Describes(discovered, duplicates, found) && id in discovered
    ensures discovered[id].id == id
  {
    hide Winner, Losers, Labels, Occurrences;
    AllDescribed(discovered, duplicates, found);
    WinnerHasId(found, id);
  }

  /** Entries for every id in the maps say everything the maps say. */
  lemma EntriesDescribe(roles: seq<Discovered>, discovered: map<string, SourceRole>,
                        duplicates: map<string, seq<Label>>, found: seq<SourceRole>)
    requires Describes(discovered, duplicates, found) && Ids(roles) == discovered.Keys
    requires forall d :: d in roles ==> IsEntry(d, discovered, duplicates)
    ensures forall d :: d in roles ==>
      var occ := Occurrences(found, d.role.id);
      occ != [] && d == Discovered(Winner(occ), Labels(Losers(occ)))
    ensures forall r :: r in found ==> r.id in Ids(roles)
  {
    hide Winner, Losers, Labels, Occurrences, Describes, DuplicatesOf;
    AllDescribed(discovered, duplicates, found);
    forall r | r in found ensures r.id in Ids(roles) {
      FoundOccurs(found, r);
    }
  }

  lemma NothingDescribed()
    ensures Describes(map[], map[], [])
  {}

  lemma NothingSorted()
    ensures SortedById([]) && Ids([]) == {}
  {}

  lemma AllDescribed(discovered: map<string, SourceRole>, duplicates: map<string, seq<Label>>, seen: seq<SourceRole>)
    requires Describes(discovered, duplicates, seen)
    ensures forall id :: id in discovered <==> Occurrences(seen, id) != []
    ensures forall id :: id in discovered ==>
      && discovered[id] == Winner(Occurrences(seen, id))
      && DuplicatesOf(duplicates, id) == Labels(Losers(Occurrences(seen, id)))
  {
    hide Winner, Losers, Labels;
    forall id ensures DescribesId(discovered, duplicates, Occurrences(seen, id), id) {}
  }

  lemma MultisetMembers(before: seq<Discovered>, d: Discovered, after: seq<Discovered>)
    requires multiset(after) == multiset(before) + multiset{d}
    ensures forall x :: x in after <==> x in before || x == d
    ensures Ids(after) == Ids(before) + {d.role.id}
  {
    assert forall x :: x in after <==> x in multiset(after);
  }

  lemma WinnerHasId(found: seq<SourceRole>, id: string)
    requires Occurrences(found, id) != []
    ensures Winner(Occurrences(found, id)).id == id
  {
    OccurrencesHaveId(found, id);
  }

  lemma {:induction false} FoundOccurs(found: seq<SourceRole>, r: SourceRole)
    requires r in found
    ensures r in Occurrences(found, r.id)
  {
    var init, last := found[..|found| - 1], found[|found| - 1];
    if r != last {
      var i :| 0 <= i < |found| && found[i] == r;
      assert init[i] == r;
      FoundOccurs(init, r);
    }
  }

  /** Nothing found is lost: the winner and the recorded duplicates are all the occurrences of the id. */
  lemma OccurrencesAccountedFor(occ: seq<SourceRole>)
    requires occ != []
    ensures multiset(occ) == multiset{Winner(occ)} + multiset(Losers(occ))
    ensures Winner(occ) in occ && |Losers(occ)| == |occ| - 1
  {
    hide ReferenceUpgrade;
    var k := FirstUpgrade(occ[0], occ);
    NotOwnUpgrade(occ[0]);
    assert k != 0;
    if k < |occ| {
      var first, w, before, after := occ[0], occ[k], occ[1..k], occ[k + 1..];
      assert occ == [first] + before + [w] + after;
      assert Losers(occ) == before + [first] + after;
      Exchange(first, before, w, after);
    } else {
      assert occ == [occ[0]] + Losers(occ);
    }
  }

  /** Who wins, in terms of paths: a first occurrence that does not lie in `reference_roles` wins whatever follows; one
      that does is replaced by the first later one of the same source that lies in `roles`, if there is any. */
  lemma WinnerByPath(occ: seq<SourceRole>, k: nat)
    requires occ != [] && k <= |occ|
    requires forall j :: 0 <= j < k ==> !(occ[j].source == occ[0].source && LiesIn(occ[j].path, "roles"))
    requires k < |occ| ==> occ[k].source == occ[0].source && LiesIn(occ[k].path, "roles")
    ensures Winner(occ) == if LiesIn(occ[0].path, "reference_roles") && k < |occ| then occ[k] else occ[0]
  {
    hide LiesIn, CatalogBase;
    CatalogIsNearest(occ[0].path, "reference_roles");
    forall j | 0 <= j < |occ|
      ensures ReferenceUpgrade(occ[0], occ[j]) <==>
        occ[j].source == occ[0].source && LiesIn(occ[0].path, "reference_roles") && LiesIn(occ[j].path, "roles")
    {
      CatalogIsNearest(occ[j].path, "roles");
    }
    var f := FirstUpgrade(occ[0], occ);
  }

  /** A reference role and the actual one of the same source: the actual one wins in either order, and the other is
      recorded. */
  lemma ActualRoleWins(v: string, w: string)
    ensures var reference := SourceRole("src", "x", v, ["src", "reference_roles", "x"]);
      var actual := SourceRole("src", "x", w, ["src", "roles", "x"]);
      && Winner([reference, actual]) == actual && Losers([reference, actual]) == [reference]
      && Winner([actual, reference]) == actual && Losers([actual, reference]) == [reference]
      && Labels(Losers([reference, actual])) == [Label("src", ["src", "reference_roles", "x"])]
  {
    var reference := SourceRole("src", "x", v, ["src", "reference_roles", "x"]);
    var actual := SourceRole("src", "x", w, ["src", "roles", "x"]);
    assert LiesIn(reference.path, "reference_roles") by { assert reference.path[1] == "reference_roles"; }
    assert LiesIn(actual.path, "roles") by { assert actual.path[1] == "roles"; }
    hide CatalogBase, LiesIn;
    OnlyOneCatalog(reference, actual);
    WinnerByPath([reference, actual], 1);
    WinnerByPath([actual, reference], 0);
    OneLoser(reference, actual);
    OneLoser(actual, reference);
  }

  lemma OnlyOneCatalog(reference: SourceRole, actual: SourceRole)
    requires reference.path == ["src", "reference_roles", "x"] && actual.path == ["src", "roles", "x"]
    ensures !LiesIn(reference.path, "roles") && !LiesIn(actual.path, "reference_roles")
  {
    assert reference.path[1] == "reference_roles" && actual.path[1] == "roles";
  }

  lemma OneLoser(a: SourceRole, b: SourceRole)
    requires a != b
    ensures Losers([a, b]) == [if Winner([a, b]) == a then b else a]
  {
    hide CatalogBase;
    assert [a, b][1..] == [b] && [a, b][1 := a][1..] == [a];
    assert FirstUpgrade(a, [a, b]) != 0 by { NotOwnUpgrade(a); }
  }

  lemma Exchange<T>(first: T, before: seq<T>, w: T, after: seq<T>)
    ensures multiset([first] + before + [w] + after) == multiset{w} + multiset(before + [first] + after)
  {}

  lemma NotOwnUpgrade(r: SourceRole)
    ensures !ReferenceUpgrade(r, r)
  {}

  /** The winner is the first occurrence, or a `roles` entry of the same source that replaced a first reference role. No
      occurrence would replace the winner, so at most one replacement happens. */
  lemma WinnerIsFinal(occ: seq<SourceRole>)
    requires occ != []
    ensures Winner(occ) == occ[0] || ReferenceUpgrade(occ[0], Winner(occ))
    ensures forall i :: 0 <= i < |occ| ==> !ReferenceUpgrade(Winner(occ), occ[i])
  {
    hide CatalogBase;
    assert FirstUpgrade(occ[0], occ) <= |occ|;
  }
}
