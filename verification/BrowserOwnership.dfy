/**
 * Which processes of a snapshot belong to an owned browser: proven ancestry or
 * a verified process group, never an executable name. The maps grow while they
 * are walked, so a Map is kept with the insertion order of its keys.
 */
module BrowserOwnership {
  import opened Values
  import opened StableSort

  datatype Identity = Identity(pid: nat, pgid: Option<nat>, startTime: Option<string>, commandLine: string)

  datatype Row = Row(self: Identity, ppid: nat)

  /** Reads a start time, where it has one of the two accepted forms. */
  type Clock = string -> Option<int>

  function Birth(clock: Clock, p: Identity): Option<int> {
    if p.startTime.None? || p.startTime.value == "" then None else clock(p.startTime.value)
  }

  /** Both births are known, and the child is not the older. */
  predicate NotBefore(clock: Clock, child: Identity, parent: Identity) {
    var c, p := Birth(clock, child), Birth(clock, parent);
    c.Some? && p.Some? && c.value >= p.value
  }

  /** Both births are known, and the child is the older. */
  predicate Before(clock: Clock, child: Identity, parent: Identity) {
    var c, p := Birth(clock, child), Birth(clock, parent);
    c.Some? && p.Some? && c.value < p.value
  }

  predicate Same(left: Identity, right: Identity) {
    && left.startTime.Some?
    && left.startTime == right.startTime
    && left.commandLine == right.commandLine
    && (left.pgid.None? || left.pgid == right.pgid)
  }

  /** The snapshot by pid; a later row replaces an earlier one. */
  function Present(snapshot: seq<Row>): (m: map<nat, Row>)
    ensures forall pid | pid in m :: m[pid] in snapshot && m[pid].self.pid == pid
    ensures forall row | row in snapshot :: row.self.pid in m
  {
    if snapshot == [] then map[]
    else Present(snapshot[..|snapshot| - 1])[snapshot[|snapshot| - 1].self.pid := snapshot[|snapshot| - 1]]
  }

  function GroupRows(snapshot: seq<Row>, pgid: nat): (rows: seq<Row>)
    ensures forall row :: row in rows <==> row in snapshot && row.self.pgid == Some(pgid)
  {
    if snapshot == [] then []
    else
      var rest := GroupRows(snapshot[..|snapshot| - 1], pgid);
      var last := snapshot[|snapshot| - 1];
      if last.self.pgid == Some(pgid) then rest + [last] else rest
  }

  /** A usable boundary: the leader of its own group, with a known birth. */
  predicate Leads(clock: Clock, leader: Identity) {
    leader.pgid == Some(leader.pid) && Birth(clock, leader).Some?
  }

  /** A row the owned identity still describes, with a known birth. */
  predicate Matches(clock: Clock, identity: Identity, row: Row) {
    Same(identity, row.self) && Birth(clock, row.self).Some?
  }

  lemma PresentLast(snapshot: seq<Row>, row: Row)
    ensures Present(snapshot + [row]) == Present(snapshot)[row.self.pid := row]
  {
    assert (snapshot + [row])[..|snapshot|] == snapshot;
  }

  predicate IsPresent(list: seq<Row>, row: Row) {
    row.self.pid in Present(list) && Present(list)[row.self.pid] == row
  }

  lemma StaysPresent(list: seq<Row>, row: Row, last: Row, longer: seq<Row>)
    requires IsPresent(list, row) && last.self.pid != row.self.pid && longer == list + [last]
    ensures IsPresent(longer, row)
  {
    PresentLast(list, last);
  }

  /** Of several rows with one pid the last is present. */
  lemma {:induction false} LastIsPresent(before: seq<Row>, row: Row, after: seq<Row>)
    requires forall r | r in after :: r.self.pid != row.self.pid
    ensures IsPresent(before + [row] + after, row)
    decreases |after|
  {
    if after == [] {
      PresentLast(before, row);
      assert before + [row] + after == before + [row];
    } else {
      var n := |after| - 1;
      var list, longer := before + [row] + after[..n], before + [row] + after;
      LastIsPresent(before, row, after[..n]);
      assert longer == list + [after[n]] && after[n] in after;
      StaysPresent(list, row, after[n], longer);
    }
  }

  /** What one inspection starts from. */
  datatype Start = Start(clock: Clock, snapshot: seq<Row>, owned: map<nat, Identity>, groups: map<nat, Identity>,
                         ambiguous: set<nat>)

  predicate NotBeforeParent(s: Start, row: Row) {
    row.ppid in Present(s.snapshot) ==> NotBefore(s.clock, row.self, Present(s.snapshot)[row.ppid].self)
  }

  /** The row was born under an earlier match, no earlier than it. */
  predicate ChildOf(s: Start, earlier: seq<nat>, row: Row) {
    row.ppid in earlier && row.ppid in Present(s.snapshot) && NotBeforeParent(s, row)
  }

  /** The leader was verified before, or is an earlier match of this inspection. */
  predicate Boundary(s: Start, owned: map<nat, Identity>, earlier: seq<nat>, pgid: nat, leader: Identity) {
    (pgid in s.groups && leader == s.groups[pgid]) || (pgid in earlier && pgid in owned && leader == owned[pgid])
  }

  /** Nothing in the snapshot contradicts the boundary: its leader is unchanged and no member is older. */
  ghost predicate Trusted(s: Start, pgid: nat, leader: Identity) {
    && (pgid in Present(s.snapshot) ==> Same(leader, Present(s.snapshot)[pgid].self))
    && forall row | row in GroupRows(s.snapshot, pgid) :: !Before(s.clock, row.self, leader)
  }

  /** The row is in a verified group, no older than its leader, nor than its parent if that is visible. */
  ghost predicate MemberOf(s: Start, owned: map<nat, Identity>, earlier: seq<nat>, row: Row) {
    && row.self.pgid.Some?
    && NotBeforeParent(s, row)
    && exists leader :: Boundary(s, owned, earlier, row.self.pgid.value, leader)
                        && Trusted(s, row.self.pgid.value, leader) && NotBefore(s.clock, row.self, leader)
  }

  /** Why the process `pid` may be adopted after the `earlier` matches. */
  ghost predicate Adopted(s: Start, owned: map<nat, Identity>, earlier: seq<nat>, pid: nat) {
    && pid in owned && pid !in s.owned && pid !in s.ambiguous
    && exists row | row in s.snapshot ::
         row.self == owned[pid] && row.self.pid == pid && (ChildOf(s, earlier, row) || MemberOf(s, owned, earlier, row))
  }

  /** Each match was owned and is still the same process, or was adopted through earlier matches. */
  ghost predicate Justified(s: Start, owned: map<nat, Identity>, matching: seq<nat>) {
    forall i | 0 <= i < |matching| ::
      || (matching[i] in s.owned && matching[i] !in s.ambiguous && matching[i] in Present(s.snapshot)
          && Matches(s.clock, s.owned[matching[i]], Present(s.snapshot)[matching[i]]))
      || Adopted(s, owned, matching[..i], matching[i])
  }

  lemma AdoptedStays(s: Start, owned: map<nat, Identity>, earlier: seq<nat>, pid: nat, new_: nat, identity: Identity)
    requires Adopted(s, owned, earlier, pid) && new_ !in owned
    ensures Adopted(s, owned[new_ := identity], earlier, pid)
  {
    var row :| row in s.snapshot && row.self == owned[pid] && row.self.pid == pid
               && (ChildOf(s, earlier, row) || MemberOf(s, owned, earlier, row));
    if !ChildOf(s, earlier, row) {
      var leader :| Boundary(s, owned, earlier, row.self.pgid.value, leader)
                      && Trusted(s, row.self.pgid.value, leader) && NotBefore(s.clock, row.self, leader);
      assert Boundary(s, owned[new_ := identity], earlier, row.self.pgid.value, leader);
    }
  }

  lemma JustifiedGrows(s: Start, owned: map<nat, Identity>, matching: seq<nat>, row: Row)
    requires Justified(s, owned, matching) && row in s.snapshot
    requires row.self.pid !in owned && row.self.pid !in s.owned && row.self.pid !in s.ambiguous
    requires ChildOf(s, matching, row) || MemberOf(s, owned, matching, row)
    ensures Justified(s, owned[row.self.pid := row.self], matching + [row.self.pid])
  {
    var owned', matching' := owned[row.self.pid := row.self], matching + [row.self.pid];
    forall i | 0 <= i < |matching'|
      ensures matching'[i] in s.owned || Adopted(s, owned', matching'[..i], matching'[i])
    {
      if i < |matching| {
        assert matching'[..i] == matching[..i];
        if matching[i] !in s.owned {
          AdoptedStays(s, owned, matching[..i], matching[i], row.self.pid, row.self);
        }
      } else {
        assert matching'[..i] == matching;
        if MemberOf(s, owned, matching, row) {
          var leader :| Boundary(s, owned, matching, row.self.pgid.value, leader)
                        && Trusted(s, row.self.pgid.value, leader) && NotBefore(s.clock, row.self, leader);
          assert Boundary(s, owned', matching, row.self.pgid.value, leader);
        }
      }
    }
  }

  /** A child of a match is accounted for: owned, ambiguous, or born before its visible parent. */
  predicate RowClosed(s: Start, row: Row, owned: map<nat, Identity>, ambiguous: set<nat>) {
    || row.self.pid in owned
    || row.self.pid in ambiguous
    || (row.ppid in Present(s.snapshot) && Before(s.clock, row.self, Present(s.snapshot)[row.ppid].self))
  }

  /** A boundary that is kept has members, is still trusted, and each member is accounted for. */
  ghost predicate GroupClosed(s: Start, pgid: nat, leader: Identity, owned: map<nat, Identity>, ambiguous: set<nat>) {
    && GroupRows(s.snapshot, pgid) != []
    && Trusted(s, pgid, leader)
    && forall row | row in GroupRows(s.snapshot, pgid) :: RowClosed(s, row, owned, ambiguous)
  }

  /** Every boundary descends from the start or from a match. */
  ghost predicate Rooted(s: Start, owned: map<nat, Identity>, matching: seq<nat>, groups: map<nat, Identity>) {
    forall pgid | pgid in groups :: Boundary(s, owned, matching, pgid, groups[pgid])
  }

  /** What every step of an inspection keeps. */
  ghost predicate Progress(s: Start, owned: map<nat, Identity>, matching: seq<nat>, groups: map<nat, Identity>,
                           ambiguous: set<nat>) {
    && Justified(s, owned, matching)
    && NoDuplicates(matching)
    && Rooted(s, owned, matching, groups)
    && (forall pid | pid in s.owned :: pid in owned && owned[pid] == s.owned[pid])
    && (forall pid | pid in owned :: pid in s.owned || pid in matching)
    && (forall pid | pid in matching :: pid in owned)
    && s.ambiguous <= ambiguous
  }

  lemma RootedGrows(s: Start, owned: map<nat, Identity>, matching: seq<nat>, groups: map<nat, Identity>,
                    row: Row, groups': map<nat, Identity>)
    requires Rooted(s, owned, matching, groups) && row.self.pid !in owned
    requires forall pgid | pgid in groups' ::
               (pgid in groups && groups'[pgid] == groups[pgid]) || (pgid == row.self.pid && groups'[pgid] == row.self)
    ensures Rooted(s, owned[row.self.pid := row.self], matching + [row.self.pid], groups')
  {
  }

  /** Adopting a justified row keeps every fact of the inspection. */
  lemma ProgressGrows(s: Start, owned: map<nat, Identity>, matching: seq<nat>, groups: map<nat, Identity>,
                      ambiguous: set<nat>, row: Row, groups': map<nat, Identity>, ambiguous': set<nat>)
    requires Progress(s, owned, matching, groups, ambiguous) && ambiguous <= ambiguous'
    requires row in s.snapshot && row.self.pid !in owned && row.self.pid !in ambiguous
    requires ChildOf(s, matching, row) || MemberOf(s, owned, matching, row)
    requires forall pgid | pgid in groups' ::
               (pgid in groups && groups'[pgid] == groups[pgid]) || (pgid == row.self.pid && groups'[pgid] == row.self)
    ensures Progress(s, owned[row.self.pid := row.self], matching + [row.self.pid], groups', ambiguous')
  {
    JustifiedGrows(s, owned, matching, row);
    RootedGrows(s, owned, matching, groups, row, groups');
  }

  /** Losing boundaries and gaining ambiguities never hurts. */
  lemma ProgressWeakens(s: Start, owned: map<nat, Identity>, matching: seq<nat>, groups: map<nat, Identity>,
                        ambiguous: set<nat>, groups': map<nat, Identity>, ambiguous': set<nat>)
    requires Progress(s, owned, matching, groups, ambiguous) && ambiguous <= ambiguous'
    requires forall pgid | pgid in groups' :: pgid in groups && groups'[pgid] == groups[pgid]
    ensures Progress(s, owned, matching, groups', ambiguous')
  {
  }

  /** The keys of a map are recorded, with those that were deleted since. */
  ghost predicate Lists<T>(keys: seq<nat>, m: map<nat, T>) {
    forall pid | pid in m :: pid in keys
  }

  ghost predicate Boundaries(clock: Clock, groups: map<nat, Identity>) {
    forall pid | pid in groups :: groups[pid].pid == pid && Leads(clock, groups[pid])
  }

  function Pids(snapshot: seq<Row>): set<nat> {
    set row | row in snapshot :: row.self.pid
  }

  /** How many processes of the snapshot could still be adopted. */
  ghost function Room(snapshot: seq<Row>, owned: map<nat, Identity>): nat {
    |Pids(snapshot) - owned.Keys|
  }

  lemma RoomShrinks(snapshot: seq<Row>, owned: map<nat, Identity>, row: Row)
    requires row in snapshot && row.self.pid !in owned
    ensures Room(snapshot, owned[row.self.pid := row.self]) < Room(snapshot, owned)
  {
    var rest := Pids(snapshot) - owned.Keys;
    assert row.self.pid in rest;
    assert Pids(snapshot) - owned[row.self.pid := row.self].Keys == rest - {row.self.pid};
  }

  /** The fields an inspection changes. */
  datatype State = State(
    owned: map<nat, Identity>, matching: seq<nat>, groups: map<nat, Identity>, groupKeys: seq<nat>,
    ambiguous: set<nat>, added: bool)

  /** One of the two births is unknown. */
  predicate Unordered(clock: Clock, a: Identity, b: Identity) {
    !NotBefore(clock, a, b) && !Before(clock, a, b)
  }

  /** A boundary that the snapshot contradicts. */
  ghost predicate BrokenGroup(s: Start, owned: map<nat, Identity>, matching: seq<nat>, pgid: nat) {
    exists leader :: Boundary(s, owned, matching, pgid, leader) && !Trusted(s, pgid, leader)
  }

  /** A row that cannot be placed: a birth is unknown that decides about it, or it claims another leader's group. */
  ghost predicate Unplaced(s: Start, owned: map<nat, Identity>, matching: seq<nat>, row: Row) {
    || Birth(s.clock, row.self).None?
    || (row.ppid in Present(s.snapshot) && Unordered(s.clock, row.self, Present(s.snapshot)[row.ppid].self))
    || (row.self.pgid.Some?
        && exists leader :: Boundary(s, owned, matching, row.self.pgid.value, leader)
                            && (Unordered(s.clock, row.self, leader)
                                || (row.self.pgid.value == row.self.pid && !Same(leader, row.self))))
  }

  /** Why a pid may be in doubt after an inspection. */
  ghost predicate Doubtful(s: Start, owned: map<nat, Identity>, matching: seq<nat>, pid: nat) {
    || Settled(s, pid, false)
    || BrokenGroup(s, owned, matching, pid)
    || exists row | row in s.snapshot :: row.self.pid == pid && Unplaced(s, owned, matching, row)
  }

  ghost predicate DoubtsOk(s: Start, owned: map<nat, Identity>, matching: seq<nat>, ambiguous: set<nat>) {
    forall pid | pid in ambiguous :: pid in s.ambiguous || Doubtful(s, owned, matching, pid)
  }

  lemma UnplacedStays(s: Start, owned: map<nat, Identity>, matching: seq<nat>, row: Row,
                      owned': map<nat, Identity>, matching': seq<nat>)
    requires Unplaced(s, owned, matching, row)
    requires forall pid | pid in owned :: pid in owned' && owned'[pid] == owned[pid]
    requires forall pid | pid in matching :: pid in matching'
    ensures Unplaced(s, owned', matching', row)
  {
    if row.self.pgid.Some? {
      forall leader | Boundary(s, owned, matching, row.self.pgid.value, leader)
        ensures Boundary(s, owned', matching', row.self.pgid.value, leader)
      {
      }
    }
  }

  /** A reason stays one while more is adopted. */
  lemma DoubtfulStays(s: Start, owned: map<nat, Identity>, matching: seq<nat>, pid: nat,
                      owned': map<nat, Identity>, matching': seq<nat>)
    requires Doubtful(s, owned, matching, pid)
    requires forall p | p in owned :: p in owned' && owned'[p] == owned[p]
    requires forall p | p in matching :: p in matching'
    ensures Doubtful(s, owned', matching', pid)
  {
    if BrokenGroup(s, owned, matching, pid) {
      var leader :| Boundary(s, owned, matching, pid, leader) && !Trusted(s, pid, leader);
      assert Boundary(s, owned', matching', pid, leader);
    } else if !Settled(s, pid, false) {
      var row :| row in s.snapshot && row.self.pid == pid && Unplaced(s, owned, matching, row);
      UnplacedStays(s, owned, matching, row, owned', matching');
    }
  }

  lemma DoubtsStayOk(s: Start, owned: map<nat, Identity>, matching: seq<nat>, ambiguous: set<nat>,
                     owned': map<nat, Identity>, matching': seq<nat>, ambiguous': set<nat>)
    requires DoubtsOk(s, owned, matching, ambiguous)
    requires forall p | p in owned :: p in owned' && owned'[p] == owned[p]
    requires forall p | p in matching :: p in matching'
    requires forall p | p in ambiguous' :: p in ambiguous || Doubtful(s, owned, matching, p)
    ensures DoubtsOk(s, owned', matching', ambiguous')
  {
    forall p | p in ambiguous' && p !in s.ambiguous
      ensures Doubtful(s, owned', matching', p)
    {
      DoubtfulStays(s, owned, matching, p, owned', matching');
    }
  }

  ghost predicate Reached(s: Start, x: State) {
    Progress(s, x.owned, x.matching, x.groups, x.ambiguous) && DoubtsOk(s, x.owned, x.matching, x.ambiguous)
  }

  /** Boundaries only go. */
  ghost predicate Loses(x: map<nat, Identity>, y: map<nat, Identity>) {
    forall pid | pid in y :: pid in x && y[pid] == x[pid]
  }

  /** A boundary is kept, or its pid is in doubt, or its group has ended. */
  predicate KeptGroup(snapshot: seq<Row>, y: State, pgid: nat) {
    pgid in y.groups || pgid in y.ambiguous || GroupRows(snapshot, pgid) == []
  }

  /** No boundary goes without a reason, and every adopted leader of a group becomes one. */
  ghost predicate KeepsGroups(snapshot: seq<Row>, x: State, y: State) {
    && (forall pgid | pgid in x.groups :: KeptGroup(snapshot, y, pgid))
    && (forall pid | pid in y.owned && pid !in x.owned && y.owned[pid].pgid == Some(pid) :: KeptGroup(snapshot, y, pid))
  }

  lemma KeepsGroupsTwice(snapshot: seq<Row>, x: State, y: State, z: State)
    requires KeepsGroups(snapshot, x, y) && KeepsGroups(snapshot, y, z) && y.ambiguous <= z.ambiguous
    requires forall pid | pid in y.owned :: pid in z.owned && z.owned[pid] == y.owned[pid]
    ensures KeepsGroups(snapshot, x, z)
  {
  }

  /** From `x` to `y` either something was adopted, or only doubts were added and boundaries dropped. */
  ghost predicate Onward(snapshot: seq<Row>, x: State, y: State) {
    && x.ambiguous <= y.ambiguous
    && (forall pid | pid in x.owned :: pid in y.owned && y.owned[pid] == x.owned[pid])
    && (forall pid | pid in x.matching :: pid in y.matching)
    && (x.added ==> y.added)
    && x.groupKeys <= y.groupKeys
    && KeepsGroups(snapshot, x, y)
    && if y.owned == x.owned
       then y.matching == x.matching && y.groupKeys == x.groupKeys && y.added == x.added && Loses(x.groups, y.groups)
       else y.added && Room(snapshot, y.owned) < Room(snapshot, x.owned)
  }

  lemma OnwardTwice(snapshot: seq<Row>, x: State, y: State, z: State)
    requires Onward(snapshot, x, y) && Onward(snapshot, y, z)
    ensures Onward(snapshot, x, z)
  {
    KeepsGroupsTwice(snapshot, x, y, z);
  }

  /** The row claims to lead a group, but its birth is unknown or another leader is recorded under its pid. */
  predicate Contradicts(clock: Clock, groups: map<nat, Identity>, row: Row) {
    && row.self.pgid == Some(row.self.pid)
    && (!Leads(clock, row.self) || (row.self.pid in groups && !Same(groups[row.self.pid], row.self)))
  }

  /** Effects of an `Adopt` call. */
  ghost predicate Adopting(clock: Clock, x: State, row: Row, adopted: bool, y: State) {
    && (adopted ==>
          && row.self.pid !in x.owned && row.self.pid !in x.ambiguous
          && y.owned == x.owned[row.self.pid := row.self]
          && y.matching == x.matching + [row.self.pid]
          && y.ambiguous == x.ambiguous && y.added && x.groupKeys <= y.groupKeys)
    && (!adopted ==>
          && (row.self.pid in x.owned || row.self.pid in y.ambiguous)
          && y.owned == x.owned && y.matching == x.matching && y.added == x.added
          && y.groupKeys == x.groupKeys
          && y.ambiguous == if row.self.pid in x.owned || row.self.pid in x.ambiguous
                               || !Contradicts(clock, x.groups, row)
                            then x.ambiguous else x.ambiguous + {row.self.pid})
    && (forall pid | pid in y.groups ::
          || (pid in x.groups && y.groups[pid] == x.groups[pid])
          || (adopted && pid == row.self.pid && y.groups[pid] == row.self))
    && (forall pid | pid in x.groups :: pid in y.groups || pid in y.ambiguous)
    && (adopted && row.self.pgid == Some(row.self.pid) ==> row.self.pid in y.groups)
  }

  lemma ContradictionIsDoubtful(s: Start, x: State, row: Row)
    requires Reached(s, x) && row in s.snapshot && Contradicts(s.clock, x.groups, row)
    ensures Doubtful(s, x.owned, x.matching, row.self.pid)
  {
    if Birth(s.clock, row.self).Some? {
      assert Boundary(s, x.owned, x.matching, row.self.pid, x.groups[row.self.pid]);
    }
    assert Unplaced(s, x.owned, x.matching, row);
  }

  lemma AfterAdopt(s: Start, x: State, row: Row, adopted: bool, y: State)
    requires Reached(s, x) && Adopting(s.clock, x, row, adopted, y) && row in s.snapshot
    requires adopted ==> ChildOf(s, x.matching, row) || MemberOf(s, x.owned, x.matching, row)
    ensures Reached(s, y)
  {
    if adopted {
      ProgressGrows(s, x.owned, x.matching, x.groups, x.ambiguous, row, y.groups, y.ambiguous);
    } else {
      ProgressWeakens(s, x.owned, x.matching, x.groups, x.ambiguous, y.groups, y.ambiguous);
      if Contradicts(s.clock, x.groups, row) { ContradictionIsDoubtful(s, x, row); }
    }
    DoubtsStayOk(s, x.owned, x.matching, x.ambiguous, y.owned, y.matching, y.ambiguous);
  }

  lemma AdoptGoesOn(clock: Clock, snapshot: seq<Row>, x: State, row: Row, adopted: bool, y: State)
    requires Adopting(clock, x, row, adopted, y) && row in snapshot
    ensures Onward(snapshot, x, y)
    ensures row.self.pid in y.owned || row.self.pid in y.ambiguous
  {
    if adopted {
      RoomShrinks(snapshot, x.owned, row);
    }
  }

  /** Only doubts were added and boundaries dropped, each for a reason. */
  ghost predicate Doubting(snapshot: seq<Row>, x: State, y: State) {
    && x.ambiguous <= y.ambiguous && Loses(x.groups, y.groups) && KeepsGroups(snapshot, x, y)
    && y == x.(ambiguous := y.ambiguous, groups := y.groups)
  }

  lemma AfterDoubt(s: Start, x: State, y: State)
    requires Reached(s, x) && Doubting(s.snapshot, x, y)
    requires forall pid | pid in y.ambiguous :: pid in x.ambiguous || Doubtful(s, x.owned, x.matching, pid)
    ensures Reached(s, y) && Onward(s.snapshot, x, y)
  {
    DoubtsStayOk(s, x.owned, x.matching, x.ambiguous, y.owned, y.matching, y.ambiguous);
    ProgressWeakens(s, x.owned, x.matching, x.groups, x.ambiguous, y.groups, y.ambiguous);
  }

  /**
   * A row that is neither owned nor ambiguous is adopted only if both births allow it, and else
   * doubted if one is unknown.
   */
  ghost predicate Expanding(clock: Clock, present: map<nat, Row>, x: State, leader: Identity, row: Row, y: State) {
    var fits := NotBefore(clock, row.self, leader)
                && (row.ppid in present ==> NotBefore(clock, row.self, present[row.ppid].self));
    if row.self.pid in x.owned || row.self.pid in x.ambiguous then y == x
    else if fits then exists adopted :: Adopting(clock, x, row, adopted, y)
    else if Before(clock, row.self, leader)
            || (NotBefore(clock, row.self, leader) && Before(clock, row.self, present[row.ppid].self))
    then y == x
    else y == x.(ambiguous := x.ambiguous + {row.self.pid})
  }

  lemma AfterExpand(s: Start, x: State, pgid: nat, leader: Identity, row: Row, y: State)
    requires Reached(s, x) && row in s.snapshot && row.self.pgid == Some(pgid)
    requires Boundary(s, x.owned, x.matching, pgid, leader) && Trusted(s, pgid, leader)
             && !Before(s.clock, row.self, leader)
    requires Expanding(s.clock, Present(s.snapshot), x, leader, row, y)
    ensures Reached(s, y)
  {
    if row.self.pid in x.owned || row.self.pid in x.ambiguous {
    } else if NotBefore(s.clock, row.self, leader) && NotBeforeParent(s, row) {
      assert MemberOf(s, x.owned, x.matching, row);
      var adopted :| Adopting(s.clock, x, row, adopted, y);
      AfterAdopt(s, x, row, adopted, y);
    } else {
      if y != x { assert Unplaced(s, x.owned, x.matching, row); }
      AfterDoubt(s, x, y);
    }
  }

  lemma ExpandGoesOn(s: Start, x: State, leader: Identity, row: Row, y: State)
    requires row in s.snapshot && !Before(s.clock, row.self, leader)
    requires Expanding(s.clock, Present(s.snapshot), x, leader, row, y)
    ensures Onward(s.snapshot, x, y) && RowClosed(s, row, y.owned, y.ambiguous)
  {
    if row.self.pid !in x.owned && row.self.pid !in x.ambiguous
       && NotBefore(s.clock, row.self, leader) && NotBeforeParent(s, row) {
      var adopted :| Adopting(s.clock, x, row, adopted, y);
      AdoptGoesOn(s.clock, s.snapshot, x, row, adopted, y);
    }
  }

  /** The rows of a group, expanded one after the other. */
  ghost predicate ExpandingAll(clock: Clock, present: map<nat, Row>, x: State, leader: Identity, rows: seq<Row>,
                               y: State)
    decreases |rows|
  {
    if rows == [] then y == x
    else
      var before, last := rows[..|rows| - 1], rows[|rows| - 1];
      exists z :: ExpandingAll(clock, present, x, leader, before, z) && Expanding(clock, present, z, leader, last, y)
  }

  /** Whatever each expansion keeps, their sequence keeps. */
  lemma {:induction false} ExpandAllKeeps(
    clock: Clock, present: map<nat, Row>, x: State, leader: Identity, rows: seq<Row>, y: State, good: State -> bool)
    requires ExpandingAll(clock, present, x, leader, rows, y) && good(x)
    requires forall z, row, z' :: row in rows && good(z) && Expanding(clock, present, z, leader, row, z') ==> good(z')
    ensures good(y)
    decreases |rows|
  {
    if rows != [] {
      var z :| ExpandingAll(clock, present, x, leader, rows[..|rows| - 1], z)
               && Expanding(clock, present, z, leader, rows[|rows| - 1], y);
      ExpandAllKeeps(clock, present, x, leader, rows[..|rows| - 1], z, good);
    }
  }

  lemma {:induction false} ExpandAllGoesOn(s: Start, x: State, leader: Identity, rows: seq<Row>, y: State)
    requires forall row | row in rows :: row in s.snapshot && !Before(s.clock, row.self, leader)
    requires ExpandingAll(s.clock, Present(s.snapshot), x, leader, rows, y)
    ensures Onward(s.snapshot, x, y)
    ensures !y.added ==> forall row | row in rows :: RowClosed(s, row, y.owned, y.ambiguous)
    decreases |rows|
  {
    if rows != [] {
      var before, last := rows[..|rows| - 1], rows[|rows| - 1];
      var z :| ExpandingAll(s.clock, Present(s.snapshot), x, leader, before, z)
               && Expanding(s.clock, Present(s.snapshot), z, leader, last, y);
      ExpandAllGoesOn(s, x, leader, before, z);
      ExpandGoesOn(s, z, leader, last, y);
      OnwardTwice(s.snapshot, x, z, y);
      assert rows == before + [last];
    }
  }

  ghost predicate ReachedBehind(s: Start, pgid: nat, leader: Identity, x: State) {
    Reached(s, x) && Boundary(s, x.owned, x.matching, pgid, leader)
  }

  lemma ExpandStaysBehind(s: Start, x: State, pgid: nat, leader: Identity, row: Row, y: State)
    requires ReachedBehind(s, pgid, leader, x) && Trusted(s, pgid, leader) && row in GroupRows(s.snapshot, pgid)
    requires Expanding(s.clock, Present(s.snapshot), x, leader, row, y)
    ensures ReachedBehind(s, pgid, leader, y)
  {
    AfterExpand(s, x, pgid, leader, row, y);
    ExpandGoesOn(s, x, leader, row, y);
  }

  lemma AfterExpandAll(s: Start, x: State, pgid: nat, leader: Identity, y: State)
    requires ReachedBehind(s, pgid, leader, x) && Trusted(s, pgid, leader)
    requires ExpandingAll(s.clock, Present(s.snapshot), x, leader, GroupRows(s.snapshot, pgid), y)
    ensures Reached(s, y)
  {
    var rows, present := GroupRows(s.snapshot, pgid), Present(s.snapshot);
    var good := z => ReachedBehind(s, pgid, leader, z);
    forall z, row, z' | row in rows && good(z) && Expanding(s.clock, present, z, leader, row, z')
      ensures good(z')
    {
      ExpandStaysBehind(s, z, pgid, leader, row, z');
    }
    ExpandAllKeeps(s.clock, present, x, leader, rows, y, good);
  }

  /** The outcome of visiting one retained group. */
  ghost predicate Visiting(clock: Clock, snapshot: seq<Row>, x: State, pgid: nat, y: State)
    requires pgid in x.groups
  {
    var present, leader, rows := Present(snapshot), x.groups[pgid], GroupRows(snapshot, pgid);
    if pgid in x.ambiguous || (pgid in present && !Same(leader, present[pgid].self))
       || exists row | row in rows :: Before(clock, row.self, leader)
    then y == x.(ambiguous := x.ambiguous + {pgid}, groups := x.groups - {pgid})
    else if rows == [] then y == x.(groups := x.groups - {pgid})
    else ExpandingAll(clock, present, x, leader, rows, y)
  }

  lemma AfterDrop(s: Start, x: State, pgid: nat, y: State)
    requires Reached(s, x) && pgid in x.groups
    requires y == x.(ambiguous := y.ambiguous, groups := x.groups - {pgid}) && x.ambiguous <= y.ambiguous
    requires pgid in y.ambiguous || GroupRows(s.snapshot, pgid) == []
    requires forall pid | pid in y.ambiguous :: pid in x.ambiguous || Doubtful(s, x.owned, x.matching, pid)
    ensures Reached(s, y) && Onward(s.snapshot, x, y)
  {
    assert KeepsGroups(s.snapshot, x, y);
    AfterDoubt(s, x, y);
  }

  lemma BrokenIsDoubtful(s: Start, x: State, pgid: nat)
    requires Reached(s, x) && pgid in x.groups && !Trusted(s, pgid, x.groups[pgid])
    ensures Doubtful(s, x.owned, x.matching, pgid)
  {
    assert Boundary(s, x.owned, x.matching, pgid, x.groups[pgid]);
    assert BrokenGroup(s, x.owned, x.matching, pgid);
  }

  /** The snapshot contradicts the group, or its pid is in doubt: it is dropped. */
  lemma AfterBreak(s: Start, x: State, pgid: nat, y: State)
    requires Reached(s, x) && pgid in x.groups && (pgid in x.ambiguous || !Trusted(s, pgid, x.groups[pgid]))
    requires y == x.(ambiguous := x.ambiguous + {pgid}, groups := x.groups - {pgid})
    ensures Reached(s, y) && Onward(s.snapshot, x, y)
  {
    if pgid !in x.ambiguous { BrokenIsDoubtful(s, x, pgid); }
    AfterDrop(s, x, pgid, y);
  }

  lemma AfterExpandGroup(s: Start, x: State, pgid: nat, y: State)
    requires Reached(s, x) && pgid in x.groups && Trusted(s, pgid, x.groups[pgid])
    requires GroupRows(s.snapshot, pgid) != []
    requires ExpandingAll(s.clock, Present(s.snapshot), x, x.groups[pgid], GroupRows(s.snapshot, pgid), y)
    ensures Reached(s, y) && Onward(s.snapshot, x, y)
    ensures !y.added && pgid in y.groups ==> GroupClosed(s, pgid, y.groups[pgid], y.owned, y.ambiguous)
  {
    AfterExpandAll(s, x, pgid, x.groups[pgid], y);
    ExpandAllGoesOn(s, x, x.groups[pgid], GroupRows(s.snapshot, pgid), y);
  }

  lemma AfterVisit(s: Start, x: State, pgid: nat, y: State)
    requires Reached(s, x) && pgid in x.groups && Visiting(s.clock, s.snapshot, x, pgid, y)
    ensures Reached(s, y) && Onward(s.snapshot, x, y)
    ensures !y.added && pgid in y.groups ==> GroupClosed(s, pgid, y.groups[pgid], y.owned, y.ambiguous)
  {
    if pgid in x.ambiguous || !Trusted(s, pgid, x.groups[pgid]) {
      AfterBreak(s, x, pgid, y);
    } else if GroupRows(s.snapshot, pgid) == [] {
      AfterDrop(s, x, pgid, y);
    } else {
      AfterExpandGroup(s, x, pgid, y);
    }
  }

  /** Whether the snapshot shows the owned process unchanged, or not. */
  predicate Settled(s: Start, pid: nat, same: bool) {
    && pid in s.owned && pid in Present(s.snapshot)
    && Matches(s.clock, s.owned[pid], Present(s.snapshot)[pid]) == same
  }

  /** Every owned process of the start that is visible is a match exactly when it is unchanged, and else ambiguous. */
  ghost predicate Census(s: Start, x: State) {
    forall pid | pid in s.owned && pid !in s.ambiguous && pid in Present(s.snapshot) ::
      if Matches(s.clock, s.owned[pid], Present(s.snapshot)[pid]) then pid in x.matching else pid in x.ambiguous
  }

  /** The owned processes in `keys` are sorted into matches, ambiguities and absent ones. */
  ghost predicate Sifted(s: Start, keys: seq<nat>, matching: seq<nat>, ambiguous: set<nat>) {
    && NoDuplicates(matching) && s.ambiguous <= ambiguous
    && (forall pid | pid in matching :: pid in s.owned && pid !in s.ambiguous && Settled(s, pid, true))
    && (forall pid | pid in ambiguous :: pid in s.ambiguous || Settled(s, pid, false))
    && (forall pid | pid in keys ::
          pid in s.ambiguous || pid !in Present(s.snapshot) || pid in matching || pid in ambiguous)
  }

  ghost predicate SiftedBy(clock: Clock, present: map<nat, Row>, owned: map<nat, Identity>, pid: nat,
                           matching: seq<nat>, ambiguous: set<nat>, matching': seq<nat>, ambiguous': set<nat>)
    requires pid in owned
  {
    if pid !in present || pid in ambiguous then matching' == matching && ambiguous' == ambiguous
    else if Matches(clock, owned[pid], present[pid])
    then ambiguous' == ambiguous && matching' == if pid in matching then matching else matching + [pid]
    else matching' == matching && ambiguous' == ambiguous + {pid}
  }

  lemma SiftOne(s: Start, keys: seq<nat>, pid: nat, matching: seq<nat>, ambiguous: set<nat>, matching': seq<nat>,
                ambiguous': set<nat>)
    requires Sifted(s, keys, matching, ambiguous) && pid in s.owned
    requires SiftedBy(s.clock, Present(s.snapshot), s.owned, pid, matching, ambiguous, matching', ambiguous')
    ensures Sifted(s, keys + [pid], matching', ambiguous')
  {
  }

  lemma StartReached(s: Start, x: State)
    requires x.owned == s.owned && x.groups == s.groups
    requires exists keys :: Lists(keys, s.owned) && Sifted(s, keys, x.matching, x.ambiguous)
    ensures Reached(s, x) && Census(s, x)
  {
  }

  /** A visible child of a match is adopted if it is no older than it, and doubted if a birth is unknown. */
  ghost predicate Following(clock: Clock, present: map<nat, Row>, x: State, row: Row, y: State) {
    if row.ppid !in x.matching || row.self.pid in x.owned || row.self.pid in x.ambiguous || row.ppid !in present
    then y == x
    else
      var parent := present[row.ppid].self;
      if NotBefore(clock, row.self, parent) then exists adopted :: Adopting(clock, x, row, adopted, y)
      else if Before(clock, row.self, parent) then y == x
      else y == x.(ambiguous := x.ambiguous + {row.self.pid})
  }

  lemma AfterFollow(s: Start, x: State, row: Row, y: State)
    requires Reached(s, x) && row in s.snapshot && Following(s.clock, Present(s.snapshot), x, row, y)
    ensures Reached(s, y)
  {
    if row.ppid in x.matching && row.self.pid !in x.owned && row.self.pid !in x.ambiguous
       && row.ppid in Present(s.snapshot)
       && NotBefore(s.clock, row.self, Present(s.snapshot)[row.ppid].self) {
      assert ChildOf(s, x.matching, row);
      var adopted :| Adopting(s.clock, x, row, adopted, y);
      AfterAdopt(s, x, row, adopted, y);
    } else {
      if y != x { assert Unplaced(s, x.owned, x.matching, row); }
      AfterDoubt(s, x, y);
    }
  }

  lemma FollowGoesOn(s: Start, x: State, row: Row, y: State)
    requires row in s.snapshot && Following(s.clock, Present(s.snapshot), x, row, y)
    ensures Onward(s.snapshot, x, y)
    ensures row.ppid in x.matching && row.ppid in Present(s.snapshot) ==> RowClosed(s, row, y.owned, y.ambiguous)
  {
    if row.ppid in x.matching && row.self.pid !in x.owned && row.self.pid !in x.ambiguous
       && row.ppid in Present(s.snapshot)
       && NotBefore(s.clock, row.self, Present(s.snapshot)[row.ppid].self) {
      var adopted :| Adopting(s.clock, x, row, adopted, y);
      AdoptGoesOn(s.clock, s.snapshot, x, row, adopted, y);
    }
  }

  lemma MatchesArePresent(s: Start, x: State, pid: nat)
    requires Reached(s, x) && pid in x.matching
    ensures pid in Present(s.snapshot)
  {
    var i :| 0 <= i < |x.matching| && x.matching[i] == pid;
    if Adopted(s, x.owned, x.matching[..i], pid) {
      var row :| row in s.snapshot && row.self.pid == pid;
    }
  }

  /** Every group kept so far is closed, except those still to be visited from `i` on. */
  ghost predicate GroupsSwept(s: Start, i: nat, x: State) {
    i <= |x.groupKeys| && (!x.added ==> forall pgid | pgid in x.groups ::
      pgid in x.groupKeys[i..] || GroupClosed(s, pgid, x.groups[pgid], x.owned, x.ambiguous))
  }

  lemma SweepSkips(s: Start, i: nat, x: State)
    requires GroupsSwept(s, i, x) && i < |x.groupKeys|
    requires x.groupKeys[i] !in x.groups || x.groupKeys[i] in x.groupKeys[i + 1..]
    ensures GroupsSwept(s, i + 1, x)
  {
    assert x.groupKeys[i..] == [x.groupKeys[i]] + x.groupKeys[i + 1..];
  }

  lemma ClosedStays(s: Start, x: State, y: State, pgid: nat, leader: Identity)
    requires Onward(s.snapshot, x, y) && GroupClosed(s, pgid, leader, x.owned, x.ambiguous)
    ensures GroupClosed(s, pgid, leader, y.owned, y.ambiguous)
  {
  }

  lemma SweepVisits(s: Start, i: nat, x: State, y: State)
    requires GroupsSwept(s, i, x) && i < |x.groupKeys| && Onward(s.snapshot, x, y)
    requires !y.added && x.groupKeys[i] in y.groups ==>
               GroupClosed(s, x.groupKeys[i], y.groups[x.groupKeys[i]], y.owned, y.ambiguous)
    ensures GroupsSwept(s, i + 1, y)
  {
    if !y.added {
      assert x.groupKeys[i..] == [x.groupKeys[i]] + x.groupKeys[i + 1..];
      forall pgid | pgid in y.groups
        ensures pgid in y.groupKeys[i + 1..] || GroupClosed(s, pgid, y.groups[pgid], y.owned, y.ambiguous)
      {
        if pgid !in x.groupKeys[i..] {
          ClosedStays(s, x, y, pgid, x.groups[pgid]);
        }
      }
    }
  }

  /** The children of matches among the rows are accounted for, and so is every kept group. */
  ghost predicate RowsSwept(s: Start, rows: seq<Row>, x: State) {
    !x.added ==>
      && (forall row | row in rows :: row.ppid in x.matching ==> RowClosed(s, row, x.owned, x.ambiguous))
      && (forall pgid | pgid in x.groups :: GroupClosed(s, pgid, x.groups[pgid], x.owned, x.ambiguous))
  }

  lemma RowSweeps(s: Start, rows: seq<Row>, x: State, row: Row, y: State)
    requires RowsSwept(s, rows, x) && Onward(s.snapshot, x, y)
    requires row.ppid in y.matching && !y.added ==> RowClosed(s, row, y.owned, y.ambiguous)
    ensures RowsSwept(s, rows + [row], y)
  {
    if !y.added {
      forall pgid | pgid in y.groups
        ensures GroupClosed(s, pgid, y.groups[pgid], y.owned, y.ambiguous)
      {
        ClosedStays(s, x, y, pgid, x.groups[pgid]);
      }
    }
  }

  lemma FollowSweeps(s: Start, rows: seq<Row>, x: State, row: Row, y: State)
    requires Reached(s, x) && RowsSwept(s, rows, x)
    requires row in s.snapshot && Following(s.clock, Present(s.snapshot), x, row, y)
    ensures Reached(s, y) && RowsSwept(s, rows + [row], y) && Onward(s.snapshot, x, y)
  {
    AfterFollow(s, x, row, y);
    FollowGoesOn(s, x, row, y);
    if row.ppid in y.matching {
      MatchesArePresent(s, y, row.ppid);
    }
    RowSweeps(s, rows, x, row, y);
  }

  ghost predicate FollowingAll(clock: Clock, present: map<nat, Row>, x: State, rows: seq<Row>, y: State)
    decreases |rows|
  {
    if rows == [] then y == x
    else
      var before, last := rows[..|rows| - 1], rows[|rows| - 1];
      exists z :: FollowingAll(clock, present, x, before, z) && Following(clock, present, z, last, y)
  }

  /** A fact about the rows done so far that each row keeps holds of them all. */
  lemma {:induction false} FollowAllKeeps(
    clock: Clock, present: map<nat, Row>, x: State, rows: seq<Row>, y: State, good: (seq<Row>, State) -> bool)
    requires FollowingAll(clock, present, x, rows, y) && good([], x)
    requires forall done, z, row, z' ::
               row in rows && good(done, z) && Following(clock, present, z, row, z') ==> good(done + [row], z')
    ensures good(rows, y)
    decreases |rows|
  {
    if rows != [] {
      var before, last := rows[..|rows| - 1], rows[|rows| - 1];
      var z :| FollowingAll(clock, present, x, before, z) && Following(clock, present, z, last, y);
      FollowAllKeeps(clock, present, x, before, z, good);
      assert rows == before + [last] && last in rows;
    }
  }

  ghost predicate SweptSince(s: Start, x: State, rows: seq<Row>, y: State) {
    Reached(s, y) && RowsSwept(s, rows, y) && Onward(s.snapshot, x, y)
  }

  lemma FollowStaysSwept(s: Start, x: State, rows: seq<Row>, y: State, row: Row, z: State)
    requires SweptSince(s, x, rows, y) && row in s.snapshot && Following(s.clock, Present(s.snapshot), y, row, z)
    ensures SweptSince(s, x, rows + [row], z)
  {
    FollowSweeps(s, rows, y, row, z);
    OnwardTwice(s.snapshot, x, y, z);
  }

  lemma AfterFollowAll(s: Start, x: State, y: State)
    requires Reached(s, x) && RowsSwept(s, [], x) && FollowingAll(s.clock, Present(s.snapshot), x, s.snapshot, y)
    ensures SweptSince(s, x, s.snapshot, y)
  {
    var present := Present(s.snapshot);
    var good := (rows, z) => SweptSince(s, x, rows, z);
    forall rows, z, row, z' | row in s.snapshot && good(rows, z) && Following(s.clock, present, z, row, z')
      ensures good(rows + [row], z')
    {
      FollowStaysSwept(s, x, rows, z, row, z');
    }
    FollowAllKeeps(s.clock, present, x, s.snapshot, y, good);
  }

  function Beginning(s: Start): State {
    State(s.owned, [], s.groups, [], s.ambiguous, false)
  }

  /** What an inspection ends with. */
  ghost predicate Inspected(s: Start, x: State) {
    Reached(s, x) && Census(s, x) && RowsSwept(s, s.snapshot, x) && !x.added && KeepsGroups(s.snapshot, Beginning(s), x)
  }

  // ---------------------------------------------------------------- what an inspection promises

  /**
   * Every returned pid is in the snapshot with the identity stored for it, of known birth, and was
   * not in doubt before.
   */
  lemma ReturnedAreVerified(s: Start, x: State, pid: nat) returns (row: Row)
    requires Inspected(s, x) && pid in x.matching
    ensures row in s.snapshot && row.self.pid == pid && pid !in s.ambiguous
    ensures pid in x.owned && Matches(s.clock, x.owned[pid], row)
    ensures row.self.startTime.Some? && row.self.startTime == x.owned[pid].startTime
            && row.self.startTime != Some("") && s.clock(row.self.startTime.value).Some?
            && row.self.commandLine == x.owned[pid].commandLine
            && (x.owned[pid].pgid.Some? ==> row.self.pgid == x.owned[pid].pgid)
  {
    var i :| 0 <= i < |x.matching| && x.matching[i] == pid;
    if Adopted(s, x.owned, x.matching[..i], pid) {
      row :| row in s.snapshot && row.self == x.owned[pid] && row.self.pid == pid
             && (ChildOf(s, x.matching[..i], row) || MemberOf(s, x.owned, x.matching[..i], row));
    } else {
      row := Present(s.snapshot)[pid];
    }
  }

  /**
   * A pid is in doubt only if it was before or with a reason: its process changed, its group's leader
   * changed or has an older member, or a birth that decides about it is unknown or another leader's
   * group is claimed.
   */
  lemma DoubtsHaveReasons(s: Start, x: State, pid: nat)
    requires Inspected(s, x) && pid in x.ambiguous
    ensures pid in s.ambiguous || Doubtful(s, x.owned, x.matching, pid)
  {
  }

  /** A child of a returned process is owned, in doubt, or born before the process that now has its parent's pid. */
  lemma ChildrenAreAccountedFor(s: Start, x: State, row: Row)
    requires Inspected(s, x) && row in s.snapshot && row.ppid in x.matching
    ensures row.self.pid in x.owned || row.self.pid in x.ambiguous
            || (row.ppid in Present(s.snapshot) && Before(s.clock, row.self, Present(s.snapshot)[row.ppid].self))
  {
    assert RowClosed(s, row, x.owned, x.ambiguous);
  }

  /** What holds between the rounds of an inspection. */
  ghost predicate Between(s: Start, x: State) {
    Reached(s, x) && Census(s, x) && RowsSwept(s, s.snapshot, x) && KeepsGroups(s.snapshot, Beginning(s), x)
  }

  lemma RoundKeeps(s: Start, x: State, y: State, z: State)
    requires Between(s, x) && Onward(s.snapshot, x.(added := false), y) && SweptSince(s, y, s.snapshot, z)
    ensures Between(s, z)
    ensures Room(s.snapshot, z.owned) < Room(s.snapshot, x.owned) || (z.owned == x.owned && !z.added)
  {
    OnwardTwice(s.snapshot, x.(added := false), y, z);
    CensusStays(s, x.(added := false), z);
    KeepsGroupsTwice(s.snapshot, Beginning(s), x, z);
  }

  lemma BeginsBetween(s: Start, x: State)
    requires Reached(s, x) && Census(s, x) && x.added && x.owned == s.owned && x.groups == s.groups
    ensures Between(s, x)
  {
  }

  lemma CensusStays(s: Start, x: State, y: State)
    requires Census(s, x) && Onward(s.snapshot, x, y)
    ensures Census(s, y)
  {
  }

  /** No boundary is lost without a reason, and a match that leads a group becomes one. */
  lemma BoundariesAreKept(s: Start, x: State, pgid: nat)
    requires Inspected(s, x)
    requires pgid in s.groups || (pgid in x.owned && pgid !in s.owned && x.owned[pgid].pgid == Some(pgid))
    ensures pgid in x.groups || pgid in x.ambiguous || GroupRows(s.snapshot, pgid) == []
  {
    assert KeptGroup(s.snapshot, x, pgid);
  }

  /** One row per pid, as `ps` lists them. */
  ghost predicate OneRowPerPid(snapshot: seq<Row>) {
    forall a, b | a in snapshot && b in snapshot && a.self.pid == b.self.pid :: a == b
  }

  /** The identity was trusted before the inspection. */
  predicate Origin(s: Start, root: Identity) {
    (exists pid | pid in s.owned :: s.owned[pid] == root) || (exists pgid | pgid in s.groups :: s.groups[pgid] == root)
  }

  lemma SameBirth(clock: Clock, left: Identity, right: Identity)
    requires Same(left, right)
    ensures Birth(clock, left) == Birth(clock, right)
  {
  }

  lemma MatchedBirth(s: Start, x: State, pid: nat)
    requires OneRowPerPid(s.snapshot) && Inspected(s, x) && pid in x.matching
    ensures pid in x.owned && pid in Present(s.snapshot)
    ensures Birth(s.clock, x.owned[pid]) == Birth(s.clock, Present(s.snapshot)[pid].self)
  {
    var row := ReturnedAreVerified(s, x, pid);
    SameBirth(s.clock, x.owned[pid], row.self);
  }

  /** Adoption never reaches back in time: each match descends from something trusted before that is no younger. */
  lemma {:induction false} NothingOlderThanItsOrigin(s: Start, x: State, i: nat) returns (root: Identity)
    requires OneRowPerPid(s.snapshot) && Inspected(s, x) && i < |x.matching|
    ensures Origin(s, root) && x.matching[i] in x.owned && NotBefore(s.clock, x.owned[x.matching[i]], root)
    decreases i
  {
    var pid, earlier := x.matching[i], x.matching[..i];
    MatchedBirth(s, x, pid);
    if pid in s.owned {
      root := s.owned[pid];
      var row := ReturnedAreVerified(s, x, pid);
      SameBirth(s.clock, root, row.self);
    } else {
      assert Adopted(s, x.owned, earlier, pid);
      var row :| row in s.snapshot && row.self == x.owned[pid] && row.self.pid == pid
                 && (ChildOf(s, earlier, row) || MemberOf(s, x.owned, earlier, row));
      if ChildOf(s, earlier, row) {
        var j :| 0 <= j < i && x.matching[j] == row.ppid;
        MatchedBirth(s, x, row.ppid);
        root := NothingOlderThanItsOrigin(s, x, j);
      } else {
        var pgid := row.self.pgid.value;
        var leader :| Boundary(s, x.owned, earlier, pgid, leader) && Trusted(s, pgid, leader)
                      && NotBefore(s.clock, row.self, leader);
        if pgid in s.groups && leader == s.groups[pgid] {
          root := leader;
        } else {
          var j :| 0 <= j < i && x.matching[j] == pgid;
          root := NothingOlderThanItsOrigin(s, x, j);
        }
      }
    }
  }

  /** The boundaries are undoubted leaders of the tree, and a leader without a boundary is in doubt. */
  ghost predicate Registered(clock: Clock, leaders: seq<Identity>, groups: map<nat, Identity>, ambiguous: set<nat>) {
    && (forall pgid | pgid in groups :: pgid !in ambiguous && groups[pgid] in leaders)
    && (forall leader | leader in leaders :: leader.pid in groups || leader.pid in ambiguous)
    && (forall leader | leader in leaders && leader.pid in groups ::
          Leads(clock, leader) && Same(groups[leader.pid], leader))
  }

  lemma RegisterOneMore(
    clock: Clock, leaders: seq<Identity>, groups: map<nat, Identity>, ambiguous: set<nat>, leader: Identity)
    requires Registered(clock, leaders, groups, ambiguous)
    ensures var doubts := if !Leads(clock, leader) || (leader.pid in groups && !Same(groups[leader.pid], leader))
                          then ambiguous + {leader.pid} else ambiguous;
            Registered(clock, leaders + [leader],
                       if leader.pid in doubts then groups - {leader.pid} else groups[leader.pid := leader], doubts)
  {
  }

  class Ownership {
    const clock: Clock
    var owned: map<nat, Identity>
    var ownedKeys: seq<nat>
    var groups: map<nat, Identity>
    var groupKeys: seq<nat>
    var ambiguous: set<nat>
    /** The matches of the current inspection and whether its current round adopted anything. */
    var matching: seq<nat>
    var added: bool

    ghost predicate Valid()
      reads this
    {
      && Lists(ownedKeys, owned)
      && (forall pid | pid in ownedKeys :: pid in owned)
      && Lists(groupKeys, groups)
      && Boundaries(clock, groups)
    }

    constructor (clock: Clock)
      ensures Valid() && this.clock == clock
      ensures owned == map[] && groups == map[] && ambiguous == {}
    {
      this.clock := clock;
      owned, ownedKeys, groups, groupKeys, ambiguous := map[], [], map[], [], {};
      matching, added := [], false;
    }

    ghost function Now(): State
      reads this
    {
      State(owned, matching, groups, groupKeys, ambiguous, added)
    }

    /** A leader becomes a boundary unless it is not one, or contradicts the one recorded under its pid. */
    method RegisterOwnedGroup(leader: Identity)
      requires Valid()
      modifies this`groups, this`groupKeys, this`ambiguous
      ensures Valid()
      ensures ambiguous == if !Leads(clock, leader)
                              || (leader.pid in old(groups) && !Same(old(groups)[leader.pid], leader))
                           then old(ambiguous) + {leader.pid} else old(ambiguous)
      ensures groups == if leader.pid in ambiguous then old(groups) - {leader.pid}
                        else old(groups)[leader.pid := leader]
      ensures groupKeys == if leader.pid in ambiguous || leader.pid in old(groups) then old(groupKeys)
                           else old(groupKeys) + [leader.pid]
    {
      if leader.pgid != Some(leader.pid) || Birth(clock, leader).None?
         || (leader.pid in groups && !Same(groups[leader.pid], leader)) {
        ambiguous := ambiguous + {leader.pid};
      }
      if leader.pid in ambiguous {
        groups := groups - {leader.pid};
      } else {
        if leader.pid !in groups { groupKeys := groupKeys + [leader.pid]; }
        groups := groups[leader.pid := leader];
      }
    }

    /** Takes over one identity that a recorded tree claims, or doubts its pid. */
    method Claim(pid: nat, identity: Option<Identity>)
      requires Valid()
      modifies this
      ensures Valid() && groups == old(groups) && groupKeys == old(groupKeys)
      ensures owned == if identity.Some? then old(owned)[pid := identity.value] else old(owned)
      ensures ambiguous == if identity.Some? then old(ambiguous) else old(ambiguous) + {pid}
    {
      if identity.None? {
        ambiguous := ambiguous + {pid};
        return;
      }
      if pid !in owned { ownedKeys := ownedKeys + [pid]; }
      owned := owned[pid := identity.value];
    }

    /** The boundaries of a recorded tree: its retained leaders, then the owned ones; none is left in doubt. */
    method RegisterGroups(leaders: seq<Identity>)
      requires Valid() && groups == map[]
      modifies this`groups, this`groupKeys, this`ambiguous
      ensures Valid() && old(ambiguous) <= ambiguous
      ensures Registered(clock, leaders, groups, ambiguous)
    {
      for i := 0 to |leaders|
        invariant Valid() && old(ambiguous) <= ambiguous
        invariant Registered(clock, leaders[..i], groups, ambiguous)
      {
        RegisterOneMore(clock, leaders[..i], groups, ambiguous, leaders[i]);
        RegisterOwnedGroup(leaders[i]);
        assert leaders[..i + 1] == leaders[..i] + [leaders[i]];
      }
      assert leaders[..|leaders|] == leaders;
      groups := groups - ambiguous;
    }

    method CanAdopt(child: Row, parent: Identity) returns (can: bool)
      modifies this`ambiguous
      ensures can == NotBefore(clock, child.self, parent)
      ensures ambiguous == if can || Before(clock, child.self, parent) then old(ambiguous)
                           else old(ambiguous) + {child.self.pid}
    {
      var c, p := Birth(clock, child.self), Birth(clock, parent);
      if c.None? || p.None? { ambiguous := ambiguous + {child.self.pid}; }
      can := c.Some? && p.Some? && c.value >= p.value;
    }

    /** Adopts a linked row, unless it is owned or ambiguous or leads a contradictory group. */
    method Adopt(row: Row) returns (adopted: bool)
      requires Valid()
      modifies this
      ensures Valid()
      ensures Adopting(clock, old(Now()), row, adopted, Now())
    {
      if row.self.pid in owned || row.self.pid in ambiguous { return false; }
      if row.self.pgid == Some(row.self.pid) {
        RegisterOwnedGroup(row.self);
      }
      if row.self.pid in ambiguous { return false; }
      owned := owned[row.self.pid := row.self];
      ownedKeys := ownedKeys + [row.self.pid];
      matching := matching + [row.self.pid];
      added := true;
      return true;
    }

    method MatchOne(present: map<nat, Row>, pid: nat)
      requires pid in owned
      modifies this`matching, this`ambiguous
      ensures SiftedBy(clock, present, owned, pid, old(matching), old(ambiguous), matching, ambiguous)
    {
      if pid !in present || pid in ambiguous { return; }
      if Same(owned[pid], present[pid].self) && Birth(clock, present[pid].self).Some? {
        if pid !in matching { matching := matching + [pid]; }
      } else {
        ambiguous := ambiguous + {pid};
      }
    }

    /** The owned processes that the snapshot still shows; one that changed becomes ambiguous. */
    method MatchOwned(ghost s: Start, present: map<nat, Row>)
      requires Valid() && s.clock == clock && s.owned == owned && s.ambiguous == ambiguous
               && present == Present(s.snapshot)
      modifies this`matching, this`ambiguous
      ensures Valid() && Sifted(s, ownedKeys, matching, ambiguous)
    {
      matching := [];
      for i := 0 to |ownedKeys|
        invariant Sifted(s, ownedKeys[..i], matching, ambiguous)
      {
        ghost var m, a := matching, ambiguous;
        MatchOne(present, ownedKeys[i]);
        SiftOne(s, ownedKeys[..i], ownedKeys[i], m, a, matching, ambiguous);
        assert ownedKeys[..i + 1] == ownedKeys[..i] + [ownedKeys[i]];
      }
      assert ownedKeys[..|ownedKeys|] == ownedKeys;
    }

    /** One row of a trusted group: adopted if it is no older than the leader and than its visible parent. */
    method ExpandMember(present: map<nat, Row>, leader: Identity, row: Row)
      requires Valid()
      modifies this
      ensures Valid() && Expanding(clock, present, old(Now()), leader, row, Now())
    {
      if row.self.pid in owned || row.self.pid in ambiguous { return; }
      var can := CanAdopt(row, leader);
      if can && row.ppid in present {
        can := CanAdopt(row, present[row.ppid].self);
      }
      if can {
        var adopted := Adopt(row);
        assert Adopting(clock, old(Now()), row, adopted, Now());
      }
    }

    method ExpandMembers(present: map<nat, Row>, leader: Identity, members: seq<Row>)
      requires Valid()
      modifies this
      ensures Valid() && ExpandingAll(clock, present, old(Now()), leader, members, Now())
    {
      for i := 0 to |members|
        invariant Valid() && ExpandingAll(clock, present, old(Now()), leader, members[..i], Now())
      {
        ghost var z := Now();
        ExpandMember(present, leader, members[i]);
        assert members[..i + 1][..i] == members[..i];
      }
      assert members[..|members|] == members;
    }

    /** One retained group: dropped when its leader changed, it emptied or a member is too old; otherwise expanded. */
    method VisitGroup(snapshot: seq<Row>, present: map<nat, Row>, pgid: nat)
      requires Valid() && present == Present(snapshot) && pgid in groups
      modifies this
      ensures Valid() && Visiting(clock, snapshot, old(Now()), pgid, Now())
    {
      var leader := groups[pgid];
      if pgid in ambiguous || (pgid in present && !Same(leader, present[pgid].self)) {
        ambiguous := ambiguous + {pgid};
        groups := groups - {pgid};
        return;
      }
      var members := GroupRows(snapshot, pgid);
      if members == [] {
        groups := groups - {pgid};
        return;
      }
      if exists row | row in members :: Before(clock, row.self, leader) {
        ambiguous := ambiguous + {pgid};
        groups := groups - {pgid};
        return;
      }
      ExpandMembers(present, leader, members);
    }

    method ExpandGroups(ghost s: Start, snapshot: seq<Row>, present: map<nat, Row>)
      requires Valid() && s.clock == clock && s.snapshot == snapshot && present == Present(snapshot)
               && Reached(s, Now())
      modifies this
      ensures Valid() && Reached(s, Now()) && Onward(snapshot, old(Now()), Now()) && GroupsSwept(s, |groupKeys|, Now())
    {
      // A Map is walked live: groups recorded meanwhile are visited too, a re-inserted key only at its new place.
      var i := 0;
      while i < |groupKeys|
        invariant Valid() && Reached(s, Now()) && Onward(snapshot, old(Now()), Now()) && GroupsSwept(s, i, Now())
        decreases Room(snapshot, owned), |groupKeys| - i
      {
        var pgid := groupKeys[i];
        ghost var x := Now();
        if pgid in groups && pgid !in groupKeys[i + 1..] {
          VisitGroup(snapshot, present, pgid);
          AfterVisit(s, x, pgid, Now());
          SweepVisits(s, i, x, Now());
          OnwardTwice(snapshot, old(Now()), x, Now());
        } else {
          SweepSkips(s, i, x);
        }
        i := i + 1;
      }
    }

    method Follow(present: map<nat, Row>, row: Row)
      requires Valid()
      modifies this
      ensures Valid() && Following(clock, present, old(Now()), row, Now())
    {
      if row.ppid !in matching || row.self.pid in owned || row.self.pid in ambiguous { return; }
      if row.ppid !in present { return; }
      var can := CanAdopt(row, present[row.ppid].self);
      if can {
        var adopted := Adopt(row);
        assert Adopting(clock, old(Now()), row, adopted, Now());
      }
    }

    method ExpandChildren(snapshot: seq<Row>, present: map<nat, Row>)
      requires Valid()
      modifies this
      ensures Valid() && FollowingAll(clock, present, old(Now()), snapshot, Now())
    {
      for i := 0 to |snapshot|
        invariant Valid() && FollowingAll(clock, present, old(Now()), snapshot[..i], Now())
      {
        ghost var x := Now();
        Follow(present, snapshot[i]);
        assert snapshot[..i + 1][..i] == snapshot[..i];
      }
      assert snapshot[..|snapshot|] == snapshot;
    }

    /** Expands proven ancestry and verified groups, in turn, until a round adopts nothing. */
    method Inspect(snapshot: seq<Row>) returns (pids: seq<nat>)
      requires Valid()
      modifies this
      ensures Valid() && pids == matching
      ensures Inspected(Start(clock, snapshot, old(owned), old(groups), old(ambiguous)), Now())
    {
      var present := Present(snapshot);
      ghost var s := Start(clock, snapshot, owned, groups, ambiguous);
      MatchOwned(s, present);
      StartReached(s, Now());
      added := true;
      BeginsBetween(s, Now());
      while added
        invariant Valid() && Between(s, Now())
        decreases Room(snapshot, owned), added
      {
        ghost var x := Now();
        added := false;
        ExpandGroups(s, snapshot, present);
        ghost var y := Now();
        ExpandChildren(snapshot, present);
        AfterFollowAll(s, y, Now());
        RoundKeeps(s, x, y, Now());
      }
      return matching;
    }
  }
}
