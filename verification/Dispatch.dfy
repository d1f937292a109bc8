/** The dispatch service: reads outside its transactions, one guarded transaction
    at the end, and other clients in between. Each method is proved to be one
    allowed action of the system, taken at the end of the history. */
module Dispatch {
  import opened Errors
  import opened Domain
  import opened Tables
  import opened Repositories
  import opened Transactions
  import opened Runs
  import opened Invariants
  import opened Safety
  import opened Theorems
  import opened ExactlyOnce
  import opened Storage
  import Preservation
  import Fee
  import Overdue

  /** `wellFormed` is the verdict on the item's text fields. */
  datatype MemberInput = MemberInput(ref: string, waiver: bool, wellFormed: bool)

  datatype MemberOutcome = MemberOutcome(ref: string, result: Result<()>)

  function Accepted(outcomes: seq<MemberOutcome>): nat {
    if outcomes == [] then 0
    else Accepted(outcomes[..|outcomes| - 1]) + (if outcomes[|outcomes| - 1].result.Ok? then 1 else 0)
  }

  /** One item: refused for its text, or tried in a transaction of its own. */
  function RegisterItem(db: Db, p: nat, size: int, item: MemberInput): Result<Db> {
    if !item.wellFormed then Err(InvalidArgument) else RegisterMemberTx(db, p, size, item.ref, item.waiver)
  }

  /** A batch registered without interruption. */
  function RegisterAll(db: Db, p: nat, size: int, items: seq<MemberInput>): (Db, seq<MemberOutcome>) {
    if items == [] then (db, [])
    else
      var item := items[|items| - 1];
      var (before, outcomes) := RegisterAll(db, p, size, items[..|items| - 1]);
      var r := RegisterItem(before, p, size, item);
      (Commit(before, r), outcomes + [MemberOutcome(item.ref, if r.Ok? then Ok(()) else Err(r.code))])
  }

  lemma OneItem(db: Db, p: nat, size: int, item: MemberInput)
    requires |RosterOf(db, p)| <= size
    ensures var r := RegisterItem(db, p, size, item);
            var after := Commit(db, r);
            && |RosterOf(after, p)| == |RosterOf(db, p)| + (if r.Ok? then 1 else 0) <= size
            && after == db.(rosters := after.rosters)
            && (r.Ok? ==> item.ref in RosterOf(after, p) && RosterOf(after, p)[item.ref] == item.waiver)
            && RosterLater(RosterOf(db, p), RosterOf(after, p))
            && (forall q :: q != p ==> RosterOf(after, q) == RosterOf(db, q))
  {
  }

  predicate Enrolled(rosters: map<nat, Roster>, p: nat, item: MemberInput) {
    item.ref in RosterIn(rosters, p) && RosterIn(rosters, p)[item.ref] == item.waiver
  }

  lemma EnrolledStays(later: Run, run: Run, p: nat, item: MemberInput)
    requires Sound(later) && ByOthers(later, run, {}) && Enrolled(Last(run).db.rosters, p, item)
    ensures Enrolled(Last(later).db.rosters, p, item)
  {
    hide Sound, Last, ByOthers;
    OthersAreLater(later, run, {});
  }

  lemma ItemEnrols(db: Db, p: nat, size: int, item: MemberInput, one: Result<()>, after: Db)
    requires Did(one, RegisterItem(db, p, size, item), db, after)
    ensures one.Ok? ==> Enrolled(after.rosters, p, item)
    ensures forall other :: Enrolled(db.rosters, p, other) ==> Enrolled(after.rosters, p, other)
  {
  }

  lemma NextItem(db: Db, p: nat, size: int, items: seq<MemberInput>, i: nat, now: Db, outcomes: seq<MemberOutcome>,
                 one: Result<()>, after: Db)
    requires i < |items| && (now, outcomes) == RegisterAll(db, p, size, items[..i])
    requires Did(one, RegisterItem(now, p, size, items[i]), now, after)
    ensures RegisterAll(db, p, size, items[..i + 1]) == (after, outcomes + [MemberOutcome(items[i].ref, one)])
  {
    hide RegisterItem;
    assert one.Ok? ==> one.value == ();
    assert items[..i + 1][..i] == items[..i];
  }

  lemma NoneAccepted()
    ensures Accepted([]) == 0
  {
  }

  lemma NoItems(db: Db, p: nat, size: int)
    ensures RegisterAll(db, p, size, []) == (db, [])
  {
  }

  lemma AcceptedExtends(outcomes: seq<MemberOutcome>, one: MemberOutcome)
    ensures Accepted(outcomes + [one]) == Accepted(outcomes) + (if one.result.Ok? then 1 else 0)
  {
  }

  /** Every accepted item is one more member with the waiver given, and no item can
      push the roster beyond the party's size. */
  lemma {:induction false} AcceptedItemsAreMembers(db: Db, p: nat, size: int, items: seq<MemberInput>)
    requires |RosterOf(db, p)| <= size
    ensures var (after, outcomes) := RegisterAll(db, p, size, items);
            && |outcomes| == |items|
            && |RosterOf(after, p)| == |RosterOf(db, p)| + Accepted(outcomes) <= size
            && after == db.(rosters := after.rosters)
            && (forall i :: 0 <= i < |items| && outcomes[i].result.Ok? ==>
                  items[i].ref in RosterOf(after, p) && RosterOf(after, p)[items[i].ref] == items[i].waiver)
            && (forall q :: q != p ==> RosterOf(after, q) == RosterOf(db, q))
  {
    hide RegisterItem, Commit, RosterOf, Accepted;
    NoneAccepted();
    if items != [] {
      var front := items[..|items| - 1];
      AcceptedItemsAreMembers(db, p, size, front);
      var (before, earlier) := RegisterAll(db, p, size, front);
      var (after, outcomes) := RegisterAll(db, p, size, items);
      OneItem(before, p, size, items[|front|]);
      assert outcomes == earlier + [outcomes[|front|]];
      AcceptedExtends(earlier, outcomes[|front|]);
      forall i | 0 <= i < |front| ensures outcomes[i] == earlier[i] && items[i] == front[i] {
      }
    }
  }

  /** The reference is that of a member already there or of an earlier accepted item. */
  ghost predicate Taken(roster: Roster, items: seq<MemberInput>, outcomes: seq<MemberOutcome>, i: nat, ref: string)
    requires i <= |items| && i <= |outcomes|
  {
    ref in roster || exists k :: 0 <= k < i && outcomes[k].result.Ok? && items[k].ref == ref
  }

  /** What becomes of item `i`, given the roster at the start and the answers before it. */
  ghost function ItemAnswer(roster: Roster, size: int, items: seq<MemberInput>, outcomes: seq<MemberOutcome>,
                            i: nat): Result<()>
    requires i < |items| && i <= |outcomes|
  {
    if !items[i].wellFormed then Err(InvalidArgument)
    else if |roster| + Accepted(outcomes[..i]) >= size || Taken(roster, items, outcomes, i, items[i].ref) then
      Err(Conflict)
    else Ok(())
  }

  ghost predicate Answers(roster: Roster, size: int, items: seq<MemberInput>, outcomes: seq<MemberOutcome>) {
    && |outcomes| == |items|
    && forall i :: 0 <= i < |items| ==>
         outcomes[i] == MemberOutcome(items[i].ref, ItemAnswer(roster, size, items, outcomes, i))
  }

  lemma AnswersExtend(roster: Roster, size: int, items: seq<MemberInput>, earlier: seq<MemberOutcome>,
                      one: MemberOutcome)
    requires items != [] && Answers(roster, size, items[..|items| - 1], earlier)
    ensures var n := |items| - 1;
            && (forall m :: Taken(roster, items, earlier + [one], n, m) <==> Taken(roster, items[..n], earlier, n, m))
            && (one == MemberOutcome(items[n].ref, ItemAnswer(roster, size, items, earlier + [one], n)) ==>
                  Answers(roster, size, items, earlier + [one]))
  {
    hide Accepted;
    var outcomes, front := earlier + [one], items[..|items| - 1];
    forall i | 0 <= i < |earlier|
      ensures outcomes[i] == MemberOutcome(items[i].ref, ItemAnswer(roster, size, items, outcomes, i))
    {
      assert outcomes[..i] == earlier[..i] && items[i] == front[i];
      assert earlier[i] == MemberOutcome(front[i].ref, ItemAnswer(roster, size, front, earlier, i));
    }
  }

  lemma TakenByOneMore(roster: Roster, items: seq<MemberInput>, outcomes: seq<MemberOutcome>, n: nat)
    requires n < |items| && n < |outcomes|
    ensures forall m :: Taken(roster, items, outcomes, n + 1, m) <==>
                        Taken(roster, items, outcomes, n, m) || (outcomes[n].result.Ok? && items[n].ref == m)
  {
  }

  /** An item is accepted exactly if it is well formed, its reference is new and a place
      is left; else it is refused for its text or as a conflict. */
  lemma {:induction false} ItemsAreAnsweredInOrder(db: Db, p: nat, size: int, items: seq<MemberInput>)
    requires |RosterOf(db, p)| <= size
    ensures var (after, outcomes) := RegisterAll(db, p, size, items);
            && Answers(RosterOf(db, p), size, items, outcomes)
            && |RosterOf(after, p)| == |RosterOf(db, p)| + Accepted(outcomes)
            && (forall m :: m in RosterOf(after, p) <==> Taken(RosterOf(db, p), items, outcomes, |items|, m))
  {
    hide Accepted, RosterOf, RegisterItem, Commit;
    if items == [] {
      NoneAccepted();
      return;
    }
    hide Answers, Taken;
    var n, roster := |items| - 1, RosterOf(db, p);
    var front := items[..n];
    ItemsAreAnsweredInOrder(db, p, size, front);
    var (after, outcomes) := RegisterAll(db, p, size, items);
    var (before, earlier) := RegisterAll(db, p, size, front);
    assert outcomes == earlier + [outcomes[n]];
    assert outcomes[..n] == earlier;
    AcceptedExtends(earlier, outcomes[n]);
    ItemInWords(before, p, size, items[n]);
    AnswersExtend(roster, size, items, earlier, outcomes[n]);
    TakenByOneMore(roster, items, outcomes, n);
    assert outcomes[n].result.Ok? ==> outcomes[n].result.value == ();
  }

  lemma ItemInWords(db: Db, p: nat, size: int, item: MemberInput)
    ensures var r, roster := RegisterItem(db, p, size, item), RosterOf(db, p);
            && (r.Ok? <==> item.wellFormed && item.ref !in roster && |roster| < size)
            && (r.Err? ==> r.code == if item.wellFormed then Conflict else InvalidArgument)
            && RosterOf(Commit(db, r), p) == (if r.Ok? then roster[item.ref := item.waiver] else roster)
            && |RosterOf(Commit(db, r), p)| == |roster| + if r.Ok? then 1 else 0
  {
  }

  /** The counter is the number of accepted items. */
  lemma {:induction false} AcceptedCounts(outcomes: seq<MemberOutcome>)
    ensures Accepted(outcomes) == |set i | 0 <= i < |outcomes| && outcomes[i].result.Ok?|
  {
    if outcomes != [] {
      var n := |outcomes| - 1;
      AcceptedCounts(outcomes[..n]);
      var before := set i | 0 <= i < n && outcomes[..n][i].result.Ok?;
      assert (set i | 0 <= i < |outcomes| && outcomes[i].result.Ok?)
          == before + if outcomes[n].result.Ok? then {n} else {};
    }
  }

  /** The answer to a permit request that nobody interferes with, in the columns of the
      tables. A record under the key stands in the way even after it has expired, until
      it is purged. */
  function PermitAnswer(db: Db, p: nat, key: Key, quota: int, fee: int, unitFee: int, maxAttempts: int,
                        inTime: bool): Result<()>
    requires p < |db.parties|
  {
    var party, roster := db.parties[p], RosterOf(db, p);
    var known := FindWindow(db.windows, party.trail, party.day);
    var free := if known.Some? then db.windows[known.value].total - db.windows[known.value].reserved else quota;
    if party.state != Draft || |roster| != party.size || (exists m :: m in roster && !roster[m]) || !inTime then
      Err(StateInvalid)
    else if known.None? && quota <= 0 then Err(InvalidArgument)
    else if known.Some? && db.windows[known.value].closedAt.Some? then Err(StateInvalid)
    else if free < party.size then Err(QuotaExhausted)
    else if fee < 0 || unitFee < 0 || maxAttempts <= 0 then Err(InvalidArgument)
    else if !Blank(key.text) && key in db.records then Err(Conflict)
    else Ok(())
  }

  /** The windows once the one of a trail day is sure to be there. */
  function WithWindow(ws: seq<Window>, trail: nat, day: int, quota: int): seq<Window> {
    if FindWindow(ws, trail, day).Some? then ws else ws + [Window(trail, day, quota, 0, 1, None)]
  }

  /** Everything a granted request changes, on the windows it found or opened. */
  predicate Granted(was: Db, ws: seq<Window>, db: Db, p: nat, w: nat, key: Key, unitFee: int, fee: int,
                    maxAttempts: int, now: int, expiresAt: int, view: View) {
    && p < |was.parties| && w < |ws|
    && var party := was.parties[p].(state := PermitReserved, version := was.parties[p].version + 1,
                                    window := Some(w), confirmedAt := Some(now));
       var window := ws[w].(reserved := ws[w].reserved + party.size, version := ws[w].version + 1);
       && view == View(p, party, RosterOf(was, p), window)
       && db.parties == was.parties[p := party] && db.windows == ws[w := window]
       && db.settlements == was.settlements[p := Settlement(party.size, unitFee, fee, Pending, "", "", None, 1)]
       && db.jobs == was.jobs + [Job(NotifyDispatch, p, Queued, 0, maxAttempts, now, "", None)]
       && db.records == (if Blank(key.text) then was.records
                         else was.records[key := Record(p, party.size, view, expiresAt)])
       && db.rosters == was.rosters && db.reports == was.reports && db.incidents == was.incidents
  }

  lemma GrantedThrough(db: Db, ws: seq<Window>, after: Db, r: PermitRequest, view: View)
    requires Granted(db.(windows := ws), ws, after, r.p, r.w, r.key, r.unitFee, r.fee, r.maxAttempts, r.now,
                     r.expiresAt, view)
    ensures Granted(db, ws, after, r.p, r.w, r.key, r.unitFee, r.fee, r.maxAttempts, r.now, r.expiresAt, view)
  {
  }

  lemma WindowIsFound(ws: seq<Window>, trail: nat, day: int, quota: int)
    ensures var known := FindWindow(ws, trail, day);
            FindWindow(WithWindow(ws, trail, day, quota), trail, day)
              == Some(if known.Some? then known.value else |ws|)
  {
    var known := FindWindow(ws, trail, day);
    if known.None? {
      assert WithWindow(ws, trail, day, quota)[..|ws|] == ws;
    }
  }

  lemma GrantedInWords(db: Db, r: PermitRequest)
    requires Current(db, r) && PermitTx(db, r).Ok?
    ensures var after := PermitTx(db, r).value;
            && r.p < |after.parties| && r.w < |after.windows|
            && Granted(db, db.windows, after, r.p, r.w, r.key, r.unitFee, r.fee, r.maxAttempts, r.now, r.expiresAt,
                       View(r.p, after.parties[r.p], RosterOf(after, r.p), after.windows[r.w]))
  {
    hide Blank;
  }

  /** The fees, the limit and the key are acceptable to the tables. */
  predicate Acceptable(db: Db, r: PermitRequest) {
    r.fee >= 0 && r.unitFee >= 0 && r.maxAttempts > 0 && (Blank(r.key.text) || r.key !in db.records)
  }

  /** A permit request decided on rows read at any earlier points of a run commits
      exactly if window and party are still the rows read, fee and limit are acceptable
      and the key is free; each refusal names its cause. */
  lemma PermitsCommitExactly(run: Run, r: PermitRequest, roster: Roster, inTime: bool)
    requires Sound(run) && Allowed(run, Action.RequestPermit(r, roster, inTime))
    ensures var db := Last(run).db;
            && r.w < |db.windows| && r.p < |db.parties|
            && (PermitTx(db, r).Ok? <==>
                  db.windows[r.w] == r.window && db.parties[r.p] == r.party && Acceptable(db, r))
            && (PermitTx(db, r).Err? ==>
                  PermitTx(db, r).code ==
                    if db.windows[r.w] != r.window || db.parties[r.p] != r.party then VersionConflict
                    else if r.fee < 0 || r.unitFee < 0 || r.maxAttempts <= 0 then InvalidArgument
                    else Conflict)
  {
    hide DbOk, QueueOk, NeverUndone, Later, Last, Sound, PermitTx, Blank, Ready;
    var act := Action.RequestPermit(r, roster, inTime);
    ReachableStatesAreSafe(run);
    ReadsAreStale(run, act);
    assert PartyRow(r.p, r.party) in Reads(act) && WindowRow(r.w, r.window) in Reads(act);
    StalePermit(Last(run).db, r, roster, inTime);
  }

  lemma StalePermit(db: Db, r: PermitRequest, roster: Roster, inTime: bool)
    requires DbOk(db) && Stale(db, PartyRow(r.p, r.party)) && Stale(db, WindowRow(r.w, r.window))
    requires PermitPrecheck(r.party, roster, inTime).Ok? && CanReserve(r.window, r.party.size).Ok?
    ensures PermitTx(db, r).Ok? <==>
              db.windows[r.w] == r.window && db.parties[r.p] == r.party && Acceptable(db, r)
    ensures PermitTx(db, r).Err? ==>
              PermitTx(db, r).code ==
                if db.windows[r.w] != r.window || db.parties[r.p] != r.party then VersionConflict
                else if r.fee < 0 || r.unitFee < 0 || r.maxAttempts <= 0 then InvalidArgument
                else Conflict
  {
    hide WindowsOk, RostersOk, PartyJobsOk, RefsOk, UniqueTopics, IncidentsOk, RecordsOk, Ready, Blank;
    assert FeeOk(r.p, db.parties[r.p], db.settlements) && PartyOk(db.parties[r.p], db.windows);
  }

  /** The rows of a request are the ones that are there now. */
  predicate Current(db: Db, r: PermitRequest) {
    r.w < |db.windows| && db.windows[r.w] == r.window && r.p < |db.parties| && db.parties[r.p] == r.party
  }

  lemma RostersGrow(later: Run, run: Run, p: nat)
    requires Sound(later) && Continues(later, run)
    ensures RosterLater(RosterOf(Last(run).db, p), RosterOf(Last(later).db, p))
  {
    hide Inv, Perform, Sound, Last;
    ReachableStatesAreSafe(later);
    SawStays(later, run, Last(run).db);
  }

  lemma SizeIsPositive(run: Run, p: nat)
    requires Sound(run) && p < |Last(run).db.parties|
    ensures Last(run).db.parties[p].size > 0
  {
    hide Later, NeverUndone, QueueOk, Last, Sound;
    ReachableStatesAreSafe(run);
    Preservation.PartyFacts(Last(run).db, p);
  }

  lemma InvariantHolds(run: Run)
    requires Sound(run)
    ensures DbOk(Last(run).db)
  {
    ReachableStatesAreSafe(run);
  }

  /** The window's own check and the tables' checks, in the order of the request. */
  function CommitAnswer(db: Db, r: PermitRequest): Result<()> {
    var reservable := CanReserve(r.window, r.party.size);
    if reservable.Err? then reservable
    else if r.fee < 0 || r.unitFee < 0 || r.maxAttempts <= 0 then Err(InvalidArgument)
    else if !Blank(r.key.text) && r.key in db.records then Err(Conflict)
    else Ok(())
  }

  lemma AnswerThrough(db: Db, after: Db, r: PermitRequest, quota: int, inTime: bool)
    requires r.p < |db.parties| && db.parties[r.p] == r.party && r.w < |after.windows|
    requires PermitPrecheck(r.party, RosterOf(db, r.p), inTime).Ok? && r.party.size > 0
    requires var known := FindWindow(db.windows, r.party.trail, r.party.day);
             && (known.Some? || quota > 0) && r.w == (if known.Some? then known.value else |db.windows|)
    requires after == db.(windows := WithWindow(db.windows, r.party.trail, r.party.day, quota))
    requires r.window == after.windows[r.w]
    ensures PermitAnswer(db, r.p, r.key, quota, r.fee, r.unitFee, r.maxAttempts, inTime) == CommitAnswer(after, r)
  {
    hide Blank, FindWindow;
  }

  lemma PrecheckRefuses(db: Db, p: nat, key: Key, quota: int, fee: int, unitFee: int, maxAttempts: int, inTime: bool)
    requires p < |db.parties| && PermitPrecheck(db.parties[p], RosterOf(db, p), inTime).Err?
    ensures PermitAnswer(db, p, key, quota, fee, unitFee, maxAttempts, inTime) == Err(StateInvalid)
    ensures PermitPrecheck(db.parties[p], RosterOf(db, p), inTime).code == StateInvalid
  {
    hide Blank, FindWindow;
  }

  lemma NoWindowRefuses(db: Db, p: nat, key: Key, quota: int, fee: int, unitFee: int, maxAttempts: int, inTime: bool)
    requires p < |db.parties| && PermitPrecheck(db.parties[p], RosterOf(db, p), inTime).Ok?
    requires FindWindow(db.windows, db.parties[p].trail, db.parties[p].day).None? && quota <= 0
    ensures PermitAnswer(db, p, key, quota, fee, unitFee, maxAttempts, inTime) == Err(InvalidArgument)
  {
    hide Blank, FindWindow;
  }

  /** Above every node reported so far, the highest of which counts as 0 if none was. */
  predicate Higher(seq_: int, reported: set<int>) {
    seq_ > 0 && forall r :: r in reported ==> r < seq_
  }

  /** The node of a trail with one sequence number. */
  function NodeAt(nodes: seq<Checkpoint>, seq_: int): (r: Option<Checkpoint>)
    ensures r.Some? ==> r.value in nodes && r.value.seq_ == seq_
    ensures r.None? ==> forall i :: 0 <= i < |nodes| ==> nodes[i].seq_ != seq_
  {
    if nodes == [] then None
    else if nodes[0].seq_ == seq_ then Some(nodes[0])
    else NodeAt(nodes[1..], seq_)
  }

  /** What a report at `nanos` stores: its time is cut to seconds, and it is on time up to
      the node's cutoff and late for the minutes of grace after it. */
  function ProgressAt(party: Party, node: Checkpoint, headCount: int, nanos: int, graceMinutes: int): Progress {
    var second, cutoff := nanos / 1_000_000_000, party.plannedStart + 60 * node.cutoffMinutes;
    Progress(if second <= cutoff then OnTime else if second <= cutoff + 60 * graceMinutes then Late else Missed,
             headCount, second)
  }

  lemma ReportsAreClassified(party: Party, node: Checkpoint, headCount: int, nanos: int, graceMinutes: int)
    ensures var status := Overdue.ClassifyReport(party.plannedStart, Overdue.Truncate(nanos), node.cutoffMinutes,
                                                 graceMinutes);
            Progress(status, headCount, Unix(nanos)) == ProgressAt(party, node, headCount, nanos, graceMinutes)
  {
  }

  /** The answer to a report that nobody interferes with: it must be the leader's, of a
      party on the trail, at a node of the trail above all nodes reported before. */
  ghost function ReportAnswer(db: Db, actor: nat, p: nat, headCount: int, nodes: seq<Checkpoint>,
                              seq_: int): Result<()> {
    if p >= |db.parties| then Err(NotFound)
    else if db.parties[p].leader != actor then Err(PermissionDenied)
    else if db.parties[p].state != OnTrail then Err(StateInvalid)
    else if headCount < 0 || headCount > db.parties[p].size then Err(InvalidArgument)
    else if forall i :: 0 <= i < |nodes| ==> nodes[i].seq_ != seq_ then Err(NotFound)
    else if (p, seq_) in db.reports then Err(Conflict)
    else if seq_ <= 0 || exists c :: (p, c) in db.reports && c > seq_ then Err(StateInvalid)
    else Ok(())
  }

  lemma HigherInWords(db: Db, p: nat, seq_: int)
    ensures Higher(seq_, ReportedBy(db, p)) <==> seq_ > 0 && forall c :: (p, c) in db.reports ==> c < seq_
  {
    forall c ensures c in ReportedBy(db, p) <==> (p, c) in db.reports {
    }
  }

  /** What a granted request leaves under the party and the key. */
  predicate Booked(db: Db, p: nat, size: int, key: Key, unitFee: int, fee: int, expiresAt: int, view: View) {
    && p in db.settlements && db.settlements[p] == Settlement(size, unitFee, fee, Pending, "", "", None, 1)
    && (Blank(key.text) || (key in db.records && db.records[key] == Record(p, size, view, expiresAt)))
  }

  lemma GrantedIsBooked(db: Db, r: PermitRequest)
    requires PermitTx(db, r).Ok?
    ensures var after := PermitTx(db, r).value;
            && r.p < |after.parties| && r.w < |after.windows|
            && Booked(after, r.p, r.party.size, r.key, r.unitFee, r.fee, r.expiresAt,
                      View(r.p, after.parties[r.p], RosterOf(after, r.p), after.windows[r.w]))
  {
  }

  lemma WritesFindTheirRows(db: Db, r: PermitRequest)
    ensures ReserveSeats(db.windows, r.w, r.window.version, r.party.size).Ok? ==>
              r.w < |db.windows| == |ReserveSeats(db.windows, r.w, r.window.version, r.party.size).value|
    ensures var c := PartyChange(r.p, r.party.state, r.party.version, PermitReserved, Some(r.w), Some(r.now), None,
                                 None);
            ApplyStateChange(db.parties, c).Ok? ==> r.p < |db.parties| == |ApplyStateChange(db.parties, c).value|
  {
  }

  /** The seats of a party are back on its window; a draft has none. */
  predicate SeatsReturned(was: seq<Window>, ws: seq<Window>, row: Party) {
    if row.state == Draft then ws == was
    else
      && row.window.Some? && row.window.value < |was|
      && var w := was[row.window.value];
         ws == was[row.window.value := w.(reserved := w.reserved - row.size, version := w.version + 1)]
  }

  /** A fee that was pending is written off; any other, and a missing one, stays. */
  predicate FeeWaived(was: map<nat, Settlement>, ss: map<nat, Settlement>, p: nat, note: string) {
    ss == if p !in was || was[p].state != Pending then was
          else was[p := was[p].(state := Waived, reference := "", note := note, settledAt := None,
                                version := was[p].version + 1)]
  }

  /** What every end of a trip changes and leaves alone. */
  predicate Ended(was: Db, db: Db, p: nat, next: PartyState, now: int) {
    && p < |was.parties|
    && db.parties == was.parties[p := was.parties[p].(state := next, version := was.parties[p].version + 1,
                                                      closedAt := Some(now))]
    && SeatsReturned(was.windows, db.windows, was.parties[p])
    && db.rosters == was.rosters && db.reports == was.reports && db.incidents == was.incidents
    && db.records == was.records
  }

  lemma CompletedInWords(db: Db, p: nat, party: Party, maxAttempts: int, now: int)
    requires DbOk(db) && p < |db.parties| && db.parties[p] == party && party.state == OnTrail
    requires CompleteTx(db, p, party, maxAttempts, now).Ok?
    ensures var after := CompleteTx(db, p, party, maxAttempts, now).value;
            && Ended(db, after, p, Completed, now) && after.settlements == db.settlements
            && after.jobs == db.jobs + [Job(SettleParty, p, Queued, 0, maxAttempts, now, "", None)]
  {
    hide WindowsOk, RostersOk, FeesOk, PartyJobsOk, RefsOk, UniqueTopics, IncidentsOk, RecordsOk;
  }

  lemma StoppedInWords(db: Db, p: nat, party: Party, next: PartyState, note: string, now: int)
    requires DbOk(db) && p < |db.parties| && db.parties[p] == party && !Terminal(party.state)
    requires StopTx(db, p, party, next, note, now).Ok?
    ensures var after := StopTx(db, p, party, next, note, now).value;
            && Ended(db, after, p, next, now) && FeeWaived(db.settlements, after.settlements, p, note)
            && after.jobs == db.jobs
  {
    hide WindowsOk, RostersOk, FeesOk, PartyJobsOk, RefsOk, UniqueTopics, IncidentsOk, RecordsOk;
  }

  class DispatchService {
    const store: Store
    const unitFee: int
    const maxAttempts: int
    const graceMinutes: int

    constructor (store: Store, unitFee: int, maxAttempts: int, graceMinutes: int)
      ensures this.store == store
      ensures this.unitFee == (if unitFee > 0 then unitFee else 4500)
      ensures this.maxAttempts == (if maxAttempts > 0 then maxAttempts else 5)
      ensures this.graceMinutes == (if graceMinutes >= 0 then graceMinutes else 0)
    {
      this.store := store;
      this.graceMinutes := if graceMinutes < 0 then 0 else graceMinutes;
      this.unitFee := if unitFee <= 0 then 4500 else unitFee;
      this.maxAttempts := if maxAttempts <= 0 then 5 else maxAttempts;
    }

    // ---------- transactions ----------

    method ReleasePermit(party: Party) returns (res: Result<()>)
      modifies store`windows
      ensures Did(res, Transactions.ReleasePermit(old(store.windows), party), old(store.windows), store.windows)
    {
      if party.window.None? || !HoldsPermit(party.state) {
        return Ok(());
      }
      res := store.ReleaseSeats(party.window.value, party.size);
    }

    method WaiveSettlement(p: nat, note: string) returns (res: Result<()>)
      modifies store`settlements
      ensures Did(res, Transactions.WaiveSettlement(old(store.settlements), p, note), old(store.settlements),
                  store.settlements)
    {
      if p !in store.settlements {
        return Ok(());
      }
      var current := store.settlements[p];
      if current.state != Pending {
        return Ok(());
      }
      res := store.ApplySettlement(p, SettlementChange(current.version, Waived, "", note, None));
    }

    method Remember(key: Key, row: Record) returns (res: Result<()>)
      modifies store`records
      ensures Did(res, Transactions.Remember(old(store.records), key, row), old(store.records), store.records)
    {
      if Blank(key.text) {
        return Ok(());
      }
      res := store.SaveRecord(key, row);
    }

    method PermitTransaction(r: PermitRequest) returns (res: Result<()>, view: Option<View>)
      modifies store
      ensures Did(res, PermitTx(old(store.State()), r), old(store.State()), store.State())
      ensures store.run == old(store.run)
      ensures res.Ok? <==> view.Some?
      ensures res.Ok? ==> r.p < |store.parties| && r.w < |store.windows| &&
                          view == Some(View(r.p, store.parties[r.p], RosterIn(store.rosters, r.p), store.windows[r.w]))
    {
      hide Repositories.ReserveSeats, Repositories.ApplyStateChange, Repositories.CreateSettlement,
        Repositories.Enqueue,
        Transactions.Remember;
      var saved := store.State();
      view := None;
      WritesFindTheirRows(saved, r);
      res := store.ReserveSeats(r.w, r.window.version, r.party.size);
      if res.Ok? {
        res := store.ApplyStateChange(PartyChange(r.p, r.party.state, r.party.version, PermitReserved,
                                                  Some(r.w), Some(r.now), None, None));
      }
      if res.Ok? {
        res := store.CreateSettlement(r.p, Settlement(r.party.size, r.unitFee, r.fee, Pending, "", "", None, 1));
      }
      if res.Ok? {
        res := store.Enqueue(NewJob(NotifyDispatch, r.p, r.maxAttempts, r.now));
      }
      if res.Ok? {
        var built := View(r.p, store.parties[r.p], RosterIn(store.rosters, r.p), store.windows[r.w]);
        view := Some(built);
        res := Remember(r.key, Record(r.p, r.party.size, built, r.expiresAt));
      }
      if res.Err? {
        view := None;
        store.Restore(saved);
      }
    }

    method CompleteTransaction(p: nat, party: Party, now: int) returns (res: Result<()>)
      modifies store
      ensures Did(res, CompleteTx(old(store.State()), p, party, maxAttempts, now), old(store.State()), store.State())
      ensures store.run == old(store.run)
    {
      var saved := store.State();
      res := store.ApplyStateChange(Close(p, party, Completed, now));
      if res.Ok? {
        res := ReleasePermit(party);
      }
      if res.Ok? {
        res := store.Enqueue(NewJob(SettleParty, p, maxAttempts, now));
      }
      if res.Err? {
        store.Restore(saved);
      }
    }

    method StopTransaction(p: nat, party: Party, next: PartyState, note: string, now: int) returns (res: Result<()>)
      modifies store
      ensures Did(res, StopTx(old(store.State()), p, party, next, note, now), old(store.State()), store.State())
      ensures store.run == old(store.run)
    {
      var saved := store.State();
      res := store.ApplyStateChange(Close(p, party, next, now));
      if res.Ok? {
        res := ReleasePermit(party);
      }
      if res.Ok? {
        res := WaiveSettlement(p, note);
      }
      if res.Err? {
        store.Restore(saved);
      }
    }

    // ---------- the permit request ----------

    method Lookup(key: Key, p: nat, size: int, now: int) returns (hit: Lookup)
      ensures hit == LookupKey(store.records, key, p, size, now)
    {
      if Blank(key.text) {
        return Miss;
      }
      if key !in store.records {
        return Miss;
      }
      var record := store.records[key];
      if record.expiresAt != 0 && now >= record.expiresAt {
        return Miss;
      }
      if record.party != p || record.size != size {
        return Mismatch;
      }
      hit := Replay(record.body);
    }

    /** Returns the window of a trail day, creating it if need be; losing a race to
        create it is not an error. */
    method EnsureWindow(trail: nat, day: int, quota: int) returns (res: Result<nat>)
      requires store.Valid()
      modifies store
      ensures store.Valid() && StillKnown(store.run, old(store.run), {})
      ensures res.Ok? ==>
                && res.value < |store.windows|
                && store.windows[res.value].trail == trail && store.windows[res.value].day == day
      ensures res.Err? ==> res.code == InvalidArgument && quota <= 0
      ensures store.alone ==>
                var known := FindWindow(old(store.windows), trail, day);
                && (res.Ok? <==> known.Some? || quota > 0)
                && (res.Ok? ==> res.value == if known.Some? then known.value else |old(store.windows)|)
                && store.State() == old(store.State()).(windows :=
                     if known.Some? || quota <= 0 then old(store.windows)
                     else old(store.windows) + [Window(trail, day, quota, 0, 1, None)])
    {
      hide Perform, Sound, Last, Inv, Later, Saw, Seen, ByOthers, WorkerStep;
      var existing := store.FindWindow(trail, day);
      if existing.Some? {
        return Ok(existing.value);
      }
      if quota <= 0 {
        return Err(InvalidArgument);
      }
      store.Pause({});
      ghost var w := InsertIfMissing(trail, day, quota);
      ghost var inserted := store.run;
      store.Pause({});
      WindowsStay(store.run, inserted, w, trail, day);
      var again := store.FindWindow(trail, day);
      res := Ok(again.value);
    }

    /** The insert of `EnsureWindow`; a row that is there already is not an error. */
    method InsertIfMissing(trail: nat, day: int, quota: int) returns (ghost w: nat)
      requires store.Valid() && quota > 0
      modifies store
      ensures store.Valid() && StillKnown(store.run, old(store.run), {})
      ensures var known := FindWindow(old(store.windows), trail, day);
              && store.State() == old(store.State()).(windows :=
                   if known.Some? then old(store.windows)
                   else old(store.windows) + [Window(trail, day, quota, 0, 1, None)])
              && w < |store.windows| && FindWindow(store.windows, trail, day) == Some(w)
              && w == if known.Some? then known.value else |old(store.windows)|
    {
      hide Perform, Sound, Last, Inv, Later, Saw, Seen, ByOthers, WorkerStep, Continues;
      ghost var act := Action.EnsureWindow(trail, day, quota);
      ghost var before, was := store.run, store.windows;
      ServiceStep(before, act);
      var _ := store.InsertWindow(trail, day, quota);
      store.run := Then(before, act);
      WindowIsThere(was, trail, day, quota);
      w := FindWindow(store.windows, trail, day).value;
    }

    /** The commit of a permit request, as one action of the system. */
    method CommitPermit(r: PermitRequest, ghost roster: Roster, ghost inTime: bool)
      returns (res: Result<()>, view: Option<View>)
      requires store.Valid() && Allowed(store.run, Action.RequestPermit(r, roster, inTime))
      modifies store
      ensures store.Valid() && store.run == Then(old(store.run), Action.RequestPermit(r, roster, inTime))
      ensures Did(res, PermitTx(old(store.State()), r), old(store.State()), store.State())
      ensures res.Ok? ==>
                && r.p < |store.parties| && store.parties[r.p].window.Some?
                && store.parties[r.p].leader == r.party.leader
                && view.Some? && view.value.party == r.p && view.value.row == store.parties[r.p]
                && view.value.row.state == PermitReserved
                && view.value.roster == RosterIn(store.rosters, r.p)
                && |view.value.roster| == store.parties[r.p].size
                && (forall m :: m in view.value.roster ==> view.value.roster[m])
                && Booked(store.State(), r.p, r.party.size, r.key, r.unitFee, r.fee, r.expiresAt, view.value)
      ensures res.Ok? && Current(old(store.State()), r) ==>
                Granted(old(store.State()), old(store.windows), store.State(), r.p, r.w, r.key, r.unitFee, r.fee,
                        r.maxAttempts, r.now, r.expiresAt, view.value)
    {
      hide Later, Inv, Enabled, NeverUndone, Booked, Perform, Sound, Last, Allowed, Reads, PermitTx, WorkerStep,
        AllStale, Granted;
      ghost var act := Action.RequestPermit(r, roster, inTime);
      ghost var before := store.run;
      ServiceStep(before, act);
      res, view := PermitTransaction(r);
      store.run := Then(before, act);
      if res.Ok? {
        GrantedView(before, r, roster, inTime);
        GrantedIsBooked(Last(before).db, r);
        if Current(Last(before).db, r) {
          GrantedInWords(Last(before).db, r);
        }
      }
    }

    /** The part of a permit request that follows the idempotency check: roster
        and window are read in turn, then the commit is tried. */
    method Reserve(p: nat, party: Party, key: Key, quota: int, fee: int, inTime: bool, now: int, ttl: nat)
      returns (res: Result<View>)
      requires store.Valid() && Seen(store.run, PartyRow(p, party)) && key.actor == party.leader
      modifies store
      ensures store.Valid() && Continues(store.run, old(store.run))
      ensures res.Ok? ==>
                && p < |store.parties| && store.parties[p].window.Some?
                && store.parties[p].leader == party.leader
                && res.value.party == p && res.value.row == store.parties[p]
                && res.value.row.state == PermitReserved
                && res.value.roster == RosterIn(store.rosters, p)
                && |res.value.roster| == store.parties[p].size
                && (forall m :: m in res.value.roster ==> res.value.roster[m])
                && Booked(store.State(), p, party.size, key, unitFee, fee, now + ttl, res.value)
      ensures store.alone && p < |old(store.parties)| && old(store.parties)[p] == party ==>
                var ws := WithWindow(old(store.windows), party.trail, party.day, quota);
                var answer := PermitAnswer(old(store.State()), p, key, quota, fee, unitFee, maxAttempts, inTime);
                && (if answer.Ok? then res.Ok? else res == Err(answer.code))
                && (res.Ok? ==>
                      var w := FindWindow(ws, party.trail, party.day);
                      w.Some? && Granted(old(store.State()), ws, store.State(), p, w.value, key, unitFee, fee,
                                         maxAttempts, now, now + ttl, res.value))
    {
      hide Perform, Inv, Later, Saw, PermitTx, ByOthers, Sound, Seen, Booked, Ready, Blank, DbOk, FindWindow,
        CanReserve, Last, Granted, PermitAnswer, CommitAnswer, PermitPrecheck;
      var roster := RosterIn(store.rosters, p);
      JustRead(store.run, RosterRead(p, roster));
      var checked := PermitPrecheck(party, roster, inTime);
      if checked.Err? {
        if p < |store.parties| && store.parties[p] == party {
          PrecheckRefuses(store.State(), p, key, quota, fee, unitFee, maxAttempts, inTime);
        }
        return Err(checked.code);
      }
      store.Pause({});
      var ensured := EnsureWindow(party.trail, party.day, quota);
      if ensured.Err? {
        if store.alone && p < |old(store.parties)| && old(store.parties)[p] == party {
          NoWindowRefuses(old(store.State()), p, key, quota, fee, unitFee, maxAttempts, inTime);
        }
        return Err(ensured.code);
      }
      var w := ensured.value;
      var window := store.windows[w];
      JustRead(store.run, WindowRow(w, window));
      var request := PermitRequest(p, party, w, window, key, unitFee, fee, maxAttempts, now, now + ttl);
      if store.alone && p < |old(store.parties)| && old(store.parties)[p] == party {
        SizeIsPositive(old(store.run), p);
        AnswerThrough(old(store.State()), store.State(), request, quota, inTime);
      }
      ghost var before := store.run;
      ghost var ready := store.State();
      res := ReserveOn(request, roster, inTime);
      ContinuesTransitive(store.run, before, old(store.run));
      if res.Ok? && store.alone && p < |old(store.parties)| && old(store.parties)[p] == party {
        WindowIsFound(old(store.windows), party.trail, party.day, quota);
        GrantedThrough(old(store.State()), ready.windows, store.State(), request, res.value);
      }
    }

    /** The window's own check, then the commit on all the rows read. */
    method ReserveOn(r: PermitRequest, roster: Roster, inTime: bool) returns (res: Result<View>)
      requires store.Valid() && r.key.actor == r.party.leader && PermitPrecheck(r.party, roster, inTime).Ok?
      requires r.window.trail == r.party.trail && r.window.day == r.party.day
      requires Seen(store.run, PartyRow(r.p, r.party)) && Seen(store.run, RosterRead(r.p, roster))
      requires Seen(store.run, WindowRow(r.w, r.window))
      modifies store
      ensures store.Valid() && Continues(store.run, old(store.run))
      ensures res.Ok? ==>
                && r.p < |store.parties| && store.parties[r.p].window.Some?
                && store.parties[r.p].leader == r.party.leader
                && res.value.party == r.p && res.value.row == store.parties[r.p]
                && res.value.row.state == PermitReserved
                && res.value.roster == RosterIn(store.rosters, r.p)
                && |res.value.roster| == store.parties[r.p].size
                && (forall m :: m in res.value.roster ==> res.value.roster[m])
                && Booked(store.State(), r.p, r.party.size, r.key, r.unitFee, r.fee, r.expiresAt, res.value)
      ensures store.alone && Current(old(store.State()), r) ==>
                var answer := CommitAnswer(old(store.State()), r);
                && (if answer.Ok? then res.Ok? else res == Err(answer.code))
                && (res.Ok? ==> Granted(old(store.State()), old(store.windows), store.State(), r.p, r.w, r.key,
                                        r.unitFee, r.fee, r.maxAttempts, r.now, r.expiresAt, res.value))
    {
      hide Perform, Inv, Later, Saw, PermitTx, ByOthers, Sound, Seen, Booked, Ready, Blank, DbOk, CanReserve, Last,
        PermitPrecheck, Granted;
      var reservable := CanReserve(r.window, r.party.size);
      if reservable.Err? {
        return Err(reservable.code);
      }
      store.Pause({});
      if store.alone && Current(store.State(), r) {
        InvariantHolds(store.run);
        StalePermit(store.State(), r, roster, inTime);
      }
      var done, view := CommitPermit(r, roster, inTime);
      if done.Err? {
        return Err(done.code);
      }
      res := Ok(view.value);
    }

    /** Reserves seats for a ready draft party, or replays the stored response. On
        success the caller's party has its permit. */
    method RequestPermit(actor: nat, p: nat, keyText: string, quota: int, difficulty: int, weekend: bool,
                         inTime: bool, now: int, ttl: nat)
      returns (res: Result<View>)
      requires store.Valid()
      modifies store
      ensures store.Valid() && Continues(store.run, old(store.run))
      ensures res.Ok? ==>
                && p < |store.parties| && store.parties[p].window.Some? && store.parties[p].leader == actor
                && res.value.party == p && res.value.row.state == PermitReserved
                && res.value.row.window == store.parties[p].window
      ensures res.Ok? ==>
                var stored, shown := RosterIn(store.rosters, p), res.value.roster;
                && |stored| == store.parties[p].size && (forall m :: m in stored ==> stored[m])
                && |shown| == store.parties[p].size && (forall m :: m in shown ==> shown[m])
      ensures store.alone && p < |old(store.parties)| && old(store.parties)[p].leader == actor ==>
                var key, row, rs := Key(keyText, actor), old(store.parties)[p], old(store.records);
                var fee := Fee.Charge(Fee.Unit(unitFee, difficulty, weekend), row.size);
                var answer := PermitAnswer(old(store.State()), p, key, quota, fee, unitFee, maxAttempts, inTime);
                var ws := WithWindow(old(store.windows), row.trail, row.day, quota);
                if !Blank(keyText) && key in rs && (rs[key].expiresAt == 0 || now < rs[key].expiresAt) then
                  && res == (if rs[key].party == p && rs[key].size == row.size then Ok(rs[key].body) else Err(Conflict))
                  && store.State() == old(store.State()) && store.run == old(store.run)
                else
                  && (if answer.Ok? then res.Ok? else res == Err(answer.code))
                  && (res.Ok? ==>
                        var w := FindWindow(ws, row.trail, row.day);
                        w.Some? && Granted(old(store.State()), ws, store.State(), p, w.value, key, unitFee, fee,
                                           maxAttempts, now, now + ttl, res.value))
      ensures p >= |old(store.parties)| ==> res == Err(NotFound)
      ensures p < |old(store.parties)| && old(store.parties)[p].leader != actor ==> res == Err(PermissionDenied)
    {
      hide Perform, Inv, Later, Saw, ByOthers, Booked, PermitAnswer, Granted, FindWindow, Blank, Sound, Last, Seen;
      if p >= |store.parties| {
        return Err(NotFound);
      }
      var party := store.parties[p];
      if party.leader != actor {
        return Err(PermissionDenied);
      }
      var key := Key(keyText, actor);
      JustRead(store.run, PartyRow(p, party));
      store.Pause({});
      var hit := Lookup(key, p, party.size, now);
      if hit.Mismatch? {
        return Err(Conflict);
      }
      if hit.Replay? {
        ReplaysAreTruthful(store.run, key, p, party.size, now);
        PermitHoldersAreComplete(store.run, p);
        return Ok(hit.body);
      }
      store.Pause({});
      ghost var before := store.run;
      var fee := Fee.PermitFee(unitFee, difficulty, party.size, weekend);
      res := Reserve(p, party, key, quota, fee, inTime, now, ttl);
      ContinuesTransitive(store.run, before, old(store.run));
    }

    // ---------- creating and filling a party ----------

    method CreateParty(row: Party, leaderRef: string) returns (res: Result<nat>)
      requires store.Valid()
      modifies store
      ensures store.Valid() && Continues(store.run, old(store.run))
      ensures res.Ok? ==>
                && res.value < |store.parties|
                && store.parties[res.value].state == Draft && store.parties[res.value].leader == row.leader
                && RosterIn(store.rosters, res.value) == map[leaderRef := true]
      ensures res.Ok? ==>
                && res.value == |old(store.parties)|
                && store.State() == old(store.State()).(
                     parties := old(store.parties) + [Party(row.trail, row.leader, row.day, row.plannedStart, row.size,
                                                            Draft, 1, None, None, None, None)],
                     rosters := old(store.rosters)[res.value := map[leaderRef := true]])
      ensures res.Err? ==> res.code == InvalidArgument && store.State() == old(store.State())
      ensures res.Ok? <==> row.size > 0
    {
      hide Inv, Later, NeverUndone, Perform, Sound, Last, Seen;
      ghost var before := store.run;
      ghost var act := Action.CreateParty(row, leaderRef);
      ReachableStatesAreSafe(before);
      ServiceStep(before, act);
      var saved := store.State();
      var p := |store.parties|;
      var draft := row.(state := Draft, window := None, confirmedAt := None, dispatchedAt := None, closedAt := None);
      var done := store.CreateParty(draft);
      if done.Ok? {
        done := store.AddMember(p, leaderRef, true);
      }
      res := if done.Ok? then Ok(p) else Err(done.code);
      if res.Err? {
        store.Restore(saved);
      }
      NewPartiesHaveNoRoster(Last(before));
      store.run := Then(before, act);
    }

    method RegisterOneMember(p: nat, party: Party, item: MemberInput) returns (res: Result<()>)
      requires store.Valid() && Seen(store.run, PartyRow(p, party)) && party.state == Draft
      modifies store
      ensures store.Valid()
      ensures store.run == if item.wellFormed then Then(old(store.run),
                                                        Action.RegisterMember(p, party, item.ref, item.waiver))
                           else old(store.run)
      ensures Did(res, RegisterItem(old(store.State()), p, party.size, item), old(store.State()), store.State())
      ensures var roster := RosterIn(old(store.rosters), p);
              && (res.Ok? <==> item.wellFormed && item.ref !in roster && |roster| < party.size)
              && (res.Err? ==> res.code == if item.wellFormed then Conflict else InvalidArgument)
              && store.State() == if res.Err? then old(store.State()) else
                   old(store.State()).(rosters := old(store.rosters)[p := roster[item.ref := item.waiver]])
    {
      hide Inv, Later, Perform, Sound, Last, NeverUndone, Seen;
      if !item.wellFormed {
        return Err(InvalidArgument);
      }
      ghost var before := store.run;
      ServiceStep(before, Action.RegisterMember(p, party, item.ref, item.waiver));
      var registered := |RosterIn(store.rosters, p)|;
      if registered >= party.size {
        res := Err(Conflict);
      } else {
        res := store.AddMember(p, item.ref, item.waiver);
      }
      store.run := Then(before, Action.RegisterMember(p, party, item.ref, item.waiver));
    }

    /** Adds hikers one by one, each in its own transaction, so that a refused item
        costs the others nothing; the counters add up to the batch. */
    method RegisterMembers(actor: nat, p: nat, items: seq<MemberInput>)
      returns (res: Result<()>, accepted: nat, rejected: nat, outcomes: seq<MemberOutcome>)
      requires store.Valid()
      modifies store
      ensures store.Valid() && Continues(store.run, old(store.run))
      ensures res.Ok? ==> 1 <= |items| <= 50 && |outcomes| == |items| && accepted + rejected == |items|
      ensures res.Ok? ==> forall i :: 0 <= i < |items| ==>
                && outcomes[i].ref == items[i].ref
                && (outcomes[i].result.Ok? ==> Enrolled(store.rosters, p, items[i]))
      ensures accepted == Accepted(outcomes)
      ensures res.Err? ==> outcomes == [] && store.State() == old(store.State())
      ensures store.alone ==>
                && (res.Ok? <==>
                      && 1 <= |items| <= 50 && p < |old(store.parties)|
                      && old(store.parties)[p].leader == actor && old(store.parties)[p].state == Draft)
                && (res.Ok? ==> (store.State(), outcomes) == RegisterAll(old(store.State()), p,
                                                                         old(store.parties)[p].size, items))
                && (res.Ok? ==>
                      var was, roster := RosterIn(old(store.rosters), p), RosterIn(store.rosters, p);
                      && Answers(was, old(store.parties)[p].size, items, outcomes)
                      && |roster| == |was| + accepted && RosterLater(was, roster))
    {
      hide Inv, Later, Perform, NeverUndone, Saw, Sound, ByOthers, RegisterAll, RegisterItem, Commit, Seen, Last,
        Enrolled, Answers, Accepted, RosterLater;
      accepted, rejected, outcomes := 0, 0, [];
      NoneAccepted();
      if items == [] || |items| > 50 {
        return Err(InvalidArgument), 0, 0, [];
      }
      if p >= |store.parties| {
        return Err(NotFound), 0, 0, [];
      }
      var party := store.parties[p];
      if party.leader != actor {
        return Err(PermissionDenied), 0, 0, [];
      }
      if party.state != Draft {
        return Err(StateInvalid), 0, 0, [];
      }
      JustRead(store.run, PartyRow(p, party));
      ghost var before := store.run;
      accepted, rejected, outcomes := RegisterEach(p, party, items);
      if store.alone {
        PermitHoldersAreComplete(before, p);
        ItemsAreAnsweredInOrder(old(store.State()), p, party.size, items);
        RostersGrow(store.run, before, p);
      }
      res := Ok(());
    }

    method RegisterEach(p: nat, party: Party, items: seq<MemberInput>)
      returns (accepted: nat, rejected: nat, outcomes: seq<MemberOutcome>)
      requires store.Valid() && Seen(store.run, PartyRow(p, party)) && party.state == Draft
      modifies store
      ensures store.Valid() && Continues(store.run, old(store.run))
      ensures |outcomes| == |items| && accepted + rejected == |items| && accepted == Accepted(outcomes)
      ensures forall i :: 0 <= i < |items| ==>
                && outcomes[i].ref == items[i].ref
                && (outcomes[i].result.Ok? ==> Enrolled(store.rosters, p, items[i]))
      ensures store.alone ==> (store.State(), outcomes) == RegisterAll(old(store.State()), p, party.size, items)
    {
      hide Inv, Later, Perform, NeverUndone, Saw, Sound, ByOthers, RegisterAll, RegisterItem, Commit, Seen, Last, Did,
        Accepted,
        Enrolled;
      accepted, rejected, outcomes := 0, 0, [];
      ghost var was := store.State();
      NoItems(was, p, party.size);
      NoneAccepted();
      assert items[..0] == [];
      for i := 0 to |items|
        invariant store.Valid() && Continues(store.run, old(store.run)) && Seen(store.run, PartyRow(p, party))
        invariant |outcomes| == i && accepted + rejected == i && accepted == Accepted(outcomes)
        invariant forall k :: 0 <= k < i ==> outcomes[k].ref == items[k].ref
        invariant forall k :: 0 <= k < i && outcomes[k].result.Ok? ==> Enrolled(store.rosters, p, items[k])
        invariant store.alone ==> (store.State(), outcomes) == RegisterAll(was, p, party.size, items[..i])
      {
        ghost var earlier := store.run;
        store.Pause({});
        forall k | 0 <= k < i && outcomes[k].result.Ok? ensures Enrolled(store.rosters, p, items[k]) {
          EnrolledStays(store.run, earlier, p, items[k]);
        }
        SeenStays(store.run, Action.RegisterMember(p, party, items[i].ref, items[i].waiver));
        ghost var before := store.State();
        var one := RegisterOneMember(p, party, items[i]);
        ItemEnrols(before, p, party.size, items[i], one, store.State());
        if store.alone {
          NextItem(was, p, party.size, items, i, before, outcomes, one, store.State());
        }
        AcceptedExtends(outcomes, MemberOutcome(items[i].ref, one));
        if one.Err? {
          rejected := rejected + 1;
        } else {
          accepted := accepted + 1;
        }
        outcomes := outcomes + [MemberOutcome(items[i].ref, one)];
      }
      assert items[..|items|] == items;
    }

    // ---------- later transitions ----------

    /** The ranger's approval and release. */
    method Advance(p: nat, expected: PartyState, next: PartyState, now: int) returns (res: Result<()>)
      requires store.Valid()
      requires (expected == PermitReserved && next == Confirmed) || (expected == Confirmed && next == OnTrail)
      modifies store
      ensures store.Valid() && Continues(store.run, old(store.run))
      ensures res.Ok? ==> p < |store.parties| && store.parties[p].state == next
      ensures res.Ok? && next == OnTrail ==> store.parties[p].dispatchedAt == Some(now)
      ensures store.alone ==> (res.Ok? <==> p < |old(store.parties)| && old(store.parties)[p].state == expected)
      ensures store.alone && res.Ok? ==>
                var row := old(store.parties)[p];
                store.State() == old(store.State()).(parties := old(store.parties)[p :=
                  row.(state := next, version := row.version + 1,
                       dispatchedAt := if next == OnTrail then Some(now) else row.dispatchedAt)])
      ensures res.Err? ==> res.code in {NotFound, StateInvalid, VersionConflict}
    {
      hide Inv, Later, NeverUndone, Perform, Sound, Last, Seen, ByOthers, WorkerStep;
      if p >= |store.parties| {
        return Err(NotFound);
      }
      var party := store.parties[p];
      if party.state != expected {
        return Err(StateInvalid);
      }
      JustRead(store.run, PartyRow(p, party));
      store.Pause({});
      ghost var act := Action.Advance(p, party, next, now);
      ghost var before := store.run;
      ServiceStep(before, act);
      res := store.ApplyStateChange(PartyChange(p, party.state, party.version, next, None, None,
                                                if next == OnTrail then Some(now) else None, None));
      store.run := Then(before, act);
    }

    /** Records a progress report with the status its time earns. Undisturbed, reports
        of one party rise strictly; with other requests in between only their
        uniqueness is sure. */
    method ReportCheckpoint(actor: nat, p: nat, headCount: int, nodes: seq<Checkpoint>, seq_: int, nanos: int)
      returns (res: Result<()>)
      requires store.Valid()
      modifies store
      ensures store.Valid() && Continues(store.run, old(store.run))
      ensures res.Ok? ==>
                && p < |old(store.parties)| && NodeAt(nodes, seq_).Some? && (p, seq_) in store.reports
                && store.reports[(p, seq_)] ==
                     ProgressAt(old(store.parties)[p], NodeAt(nodes, seq_).value, headCount, nanos, graceMinutes)
      ensures store.alone ==>
                && res == ReportAnswer(old(store.State()), actor, p, headCount, nodes, seq_)
                && (res.Err? ==> store.State() == old(store.State()))
                && (res.Ok? ==> store.State() == old(store.State()).(reports :=
                                  old(store.reports)[(p, seq_) := store.reports[(p, seq_)]]))
    {
      hide Inv, Later, Perform, Saw, ByOthers, Sound, Seen, Last, ReportedBy, Higher, Overdue.ClassifyReport,
        ProgressAt;
      HigherInWords(store.State(), p, seq_);
      if p >= |store.parties| {
        return Err(NotFound);
      }
      var party := store.parties[p];
      if party.leader != actor {
        return Err(PermissionDenied);
      }
      if party.state != OnTrail {
        return Err(StateInvalid);
      }
      if headCount < 0 || headCount > party.size {
        return Err(InvalidArgument);
      }
      var node := NodeAt(nodes, seq_);
      if node.None? {
        return Err(NotFound);
      }
      JustRead(store.run, PartyRow(p, party));
      store.Pause({});
      if (p, seq_) in store.reports {
        return Err(Conflict);
      }
      store.Pause({});
      var reported := ReportedBy(store.State(), p);
      if !Higher(seq_, reported) {
        return Err(StateInvalid);
      }
      store.Pause({});
      var status := Overdue.ClassifyReport(party.plannedStart, Overdue.Truncate(nanos), node.value.cutoffMinutes,
                                           graceMinutes);
      ReportsAreClassified(party, node.value, headCount, nanos, graceMinutes);
      res := CommitReport(p, party, seq_, Progress(status, headCount, Unix(nanos)));
      assert res.Ok? ==> res.value == ();
    }

    method CommitReport(p: nat, ghost party: Party, seq_: int, row: Progress) returns (res: Result<()>)
      requires store.Valid() && Seen(store.run, PartyRow(p, party)) && party.state == OnTrail
      modifies store
      ensures store.Valid() && store.run == Then(old(store.run), Action.Report(p, party, seq_, row))
      ensures Did(res, ReportTx(old(store.State()), p, seq_, row), old(store.State()), store.State())
    {
      hide Inv, Later, Perform, Saw, Sound, Seen, Last;
      ghost var before, act := store.run, Action.Report(p, party, seq_, row);
      ServiceStep(before, act);
      res := store.CreateReport(p, seq_, row);
      store.run := Then(before, act);
    }

    /** Ends a trip: every mandatory checkpoint must have been reported. */
    method CompleteParty(actor: nat, p: nat, checkpoints: seq<Checkpoint>, now: int) returns (res: Result<()>)
      requires store.Valid()
      modifies store
      ensures store.Valid() && Continues(store.run, old(store.run))
      ensures res.Ok? ==>
                && p < |store.parties| && store.parties[p].state == Completed && store.parties[p].leader == actor
                && store.parties[p].closedAt == Some(now)
                && (forall i :: 0 <= i < |checkpoints| && checkpoints[i].mandatory ==>
                      (p, checkpoints[i].seq_) in store.reports)
                && |store.jobs| > 0
                && store.jobs[|store.jobs| - 1] == Job(SettleParty, p, Queued, 0, maxAttempts, now, "", None)
      ensures store.alone && res.Ok? ==>
                && Ended(old(store.State()), store.State(), p, Completed, now)
                && store.settlements == old(store.settlements)
                && store.jobs == old(store.jobs) + [Job(SettleParty, p, Queued, 0, maxAttempts, now, "", None)]
      ensures store.alone && maxAttempts > 0 ==>
                (res.Ok? <==>
                   && p < |old(store.parties)| && old(store.parties)[p].state == OnTrail
                   && old(store.parties)[p].leader == actor
                   && (forall i :: 0 <= i < |checkpoints| && checkpoints[i].mandatory ==>
                         (p, checkpoints[i].seq_) in old(store.reports)))
    {
      hide Inv, Later, NeverUndone, Perform, Saw, ByOthers, Sound, Last, Seen;
      if p >= |store.parties| {
        return Err(NotFound);
      }
      var party := store.parties[p];
      if party.leader != actor {
        return Err(PermissionDenied);
      }
      var legal := ValidatePartyTransition(party.state, Completed);
      if legal.Err? {
        return Err(legal.code);
      }
      JustRead(store.run, PartyRow(p, party));
      store.Pause({});
      var reported := ReportedBy(store.State(), p);
      JustRead(store.run, ReportsRead(p, reported));
      var finished, mandatory := AllReported(checkpoints, reported);
      if !finished {
        return Err(StateInvalid);
      }
      store.Pause({});
      res := CommitComplete(p, party, mandatory, reported, now);
    }

    method AllReported(checkpoints: seq<Checkpoint>, reported: set<int>) returns (finished: bool,
                                                                                  ghost mandatory: set<int>)
      ensures finished <==>
                forall i :: 0 <= i < |checkpoints| && checkpoints[i].mandatory ==> checkpoints[i].seq_ in reported
      ensures finished ==> mandatory <= reported
      ensures finished ==>
                forall i :: 0 <= i < |checkpoints| && checkpoints[i].mandatory ==> checkpoints[i].seq_ in mandatory
    {
      mandatory := {};
      for i := 0 to |checkpoints|
        invariant mandatory <= reported
        invariant forall k :: 0 <= k < i && checkpoints[k].mandatory ==> checkpoints[k].seq_ in mandatory
      {
        if checkpoints[i].mandatory {
          if checkpoints[i].seq_ !in reported {
            return false, {};
          }
          mandatory := mandatory + {checkpoints[i].seq_};
        }
      }
      finished := true;
    }

    method CommitComplete(p: nat, party: Party, ghost mandatory: set<int>, ghost reported: set<int>, now: int)
      returns (res: Result<()>)
      requires store.Valid() && Allowed(store.run, Action.Complete(p, party, mandatory, reported, maxAttempts, now))
      modifies store
      ensures store.Valid()
      ensures store.run == Then(old(store.run), Action.Complete(p, party, mandatory, reported, maxAttempts, now))
      ensures res.Ok? ==>
                && p < |store.parties|
                && store.parties[p].state == Completed && store.parties[p].leader == party.leader
                && store.parties[p].closedAt == Some(now)
                && store.jobs == old(store.jobs) + [Job(SettleParty, p, Queued, 0, maxAttempts, now, "", None)]
      ensures res.Ok? ==> forall c :: c in reported ==> (p, c) in store.reports
      ensures res.Ok? && p < |old(store.parties)| && old(store.parties)[p] == party ==>
                Ended(old(store.State()), store.State(), p, Completed, now)
                && store.settlements == old(store.settlements)
      ensures res.Err? ==> store.State() == old(store.State())
      ensures maxAttempts > 0 ==> (res.Err? ==> res.code == VersionConflict)
      ensures maxAttempts > 0 && p < |old(store.parties)| && old(store.parties)[p] == party ==> res.Ok?
    {
      hide Inv, Later, WorkerStep, NeverUndone, CompleteTx, Allowed, Ended, DbOk;
      ghost var act := Action.Complete(p, party, mandatory, reported, maxAttempts, now);
      ghost var before := store.run;
      CompletedOutcome(before, p, party, mandatory, reported, maxAttempts, now);
      InvariantHolds(before);
      CompletesFromTrail(before, p, party, mandatory, reported, maxAttempts, now);
      if p < |store.parties| && store.parties[p] == party && CompleteTx(store.State(), p, party, maxAttempts, now).Ok? {
        CompletedInWords(store.State(), p, party, maxAttempts, now);
      }
      if maxAttempts > 0 {
        ClosingFailsOnlyOnConflict(before, act);
      }
      res := CompleteTransaction(p, party, now);
      store.run := Then(before, act);
    }

    method CommitStop(p: nat, party: Party, next: PartyState, note: string, now: int) returns (res: Result<()>)
      requires store.Valid() && Allowed(store.run, Action.Stop(p, party, next, note, now))
      modifies store
      ensures store.Valid() && store.run == Then(old(store.run), Action.Stop(p, party, next, note, now))
      ensures res.Ok? ==>
                && p < |store.parties|
                && store.parties[p].state == next && store.parties[p].leader == party.leader
                && store.parties[p].closedAt == Some(now)
      ensures res.Err? ==> res.code == VersionConflict && store.State() == old(store.State())
      ensures p < |old(store.parties)| && old(store.parties)[p] == party ==>
                && res.Ok? && Ended(old(store.State()), store.State(), p, next, now)
                && FeeWaived(old(store.settlements), store.settlements, p, note) && store.jobs == old(store.jobs)
    {
      hide Inv, Later, WorkerStep, NeverUndone, Ended, FeeWaived, DbOk, Allowed;
      ghost var act := Action.Stop(p, party, next, note, now);
      ghost var before := store.run;
      ClosingFailsOnlyOnConflict(before, act);
      InvariantHolds(before);
      StopsFromActive(before, p, party, next, note, now);
      if p < |store.parties| && store.parties[p] == party {
        StoppedInWords(store.State(), p, party, next, note, now);
      }
      res := StopTransaction(p, party, next, note, now);
      store.run := Then(before, act);
    }

    /** Withdraws a party that is not on the trail yet. */
    method CancelParty(actor: nat, ranger: bool, p: nat, note: string, now: int) returns (res: Result<()>)
      requires store.Valid()
      modifies store
      ensures store.Valid() && Continues(store.run, old(store.run))
      ensures res.Ok? ==>
                && p < |store.parties| && store.parties[p].state == Cancelled
                && store.parties[p].closedAt == Some(now)
                && (ranger || store.parties[p].leader == actor)
      ensures res.Err? ==> res.code in {NotFound, PermissionDenied, StateInvalid, VersionConflict}
      ensures store.alone ==>
                (res.Ok? <==>
                   && p < |old(store.parties)|
                   && old(store.parties)[p].state in {Draft, PermitReserved, Confirmed}
                   && (ranger || old(store.parties)[p].leader == actor))
      ensures store.alone && res.Ok? ==>
                && Ended(old(store.State()), store.State(), p, Cancelled, now)
                && FeeWaived(old(store.settlements), store.settlements, p, note) && store.jobs == old(store.jobs)
    {
      hide Inv, Later, NeverUndone, Perform, Saw, ByOthers, Sound, Ended, FeeWaived;
      if p >= |store.parties| {
        return Err(NotFound);
      }
      var party := store.parties[p];
      if !ranger && party.leader != actor {
        return Err(PermissionDenied);
      }
      var legal := ValidatePartyTransition(party.state, Cancelled);
      if legal.Err? {
        return Err(legal.code);
      }
      JustRead(store.run, PartyRow(p, party));
      store.Pause({});
      res := CommitStop(p, party, Cancelled, note, now);
    }

    /** Stops a party after a critical incident. Returning without an error means
        the party is in a terminal state; one that already is, is left alone. */
    method AbortParty(p: nat, reason: string, now: int) returns (res: Result<()>)
      requires store.Valid()
      modifies store
      ensures store.Valid() && Continues(store.run, old(store.run))
      ensures res.Ok? ==> p < |store.parties| && store.parties[p].state in {Completed, Cancelled, Aborted}
      ensures p < |old(store.parties)| && old(store.parties)[p].state in {Completed, Cancelled, Aborted} ==>
                res.Ok? && store.State() == old(store.State()) && store.run == old(store.run)
      ensures res.Err? ==> res.code in {NotFound, StateInvalid, VersionConflict}
      ensures store.alone ==>
                (res.Ok? <==>
                   && p < |old(store.parties)|
                   && old(store.parties)[p].state in {Confirmed, OnTrail, Completed, Cancelled, Aborted})
      ensures store.alone && res.Ok? && old(store.parties)[p].state in {Confirmed, OnTrail} ==>
                && Ended(old(store.State()), store.State(), p, Aborted, now)
                && FeeWaived(old(store.settlements), store.settlements, p, reason) && store.jobs == old(store.jobs)
    {
      hide Inv, Later, NeverUndone, Perform, Saw, ByOthers, Sound, Ended, FeeWaived;
      if p >= |store.parties| {
        return Err(NotFound);
      }
      var party := store.parties[p];
      if Terminal(party.state) {
        return Ok(());
      }
      var legal := ValidatePartyTransition(party.state, Aborted);
      if legal.Err? {
        return Err(legal.code);
      }
      JustRead(store.run, PartyRow(p, party));
      store.Pause({});
      res := CommitStop(p, party, Aborted, reason, now);
    }
  }

  lemma CompletesFromTrail(run: Run, p: nat, party: Party, mandatory: set<int>, reported: set<int>, maxAttempts: int,
                           now: int)
    requires Allowed(run, Action.Complete(p, party, mandatory, reported, maxAttempts, now))
    ensures party.state == OnTrail
  {
    hide Reads, Seen, Last;
  }

  lemma StopsFromActive(run: Run, p: nat, party: Party, next: PartyState, note: string, now: int)
    requires Allowed(run, Action.Stop(p, party, next, note, now))
    ensures !Terminal(party.state)
  {
    hide Reads, Seen, Last;
  }

  lemma CompletedOutcome(run: Run, p: nat, party: Party, mandatory: set<int>, reported: set<int>, maxAttempts: int,
                         now: int)
    requires Sound(run) && Allowed(run, Action.Complete(p, party, mandatory, reported, maxAttempts, now))
    ensures var r := CompleteTx(Last(run).db, p, party, maxAttempts, now);
            r.Ok? ==>
              && p < |r.value.parties|
              && r.value.parties[p].state == Completed && r.value.parties[p].leader == party.leader
              && r.value.parties[p].closedAt == Some(now)
              && r.value.jobs == Last(run).db.jobs + [Job(SettleParty, p, Queued, 0, maxAttempts, now, "", None)]
              && forall c :: c in reported ==> (p, c) in r.value.reports
  {
    hide Inv, Later, NeverUndone, Enabled, Seen, Sound, Last, CompleteTx, ReportedBy, PartyLater;
    var act := Action.Complete(p, party, mandatory, reported, maxAttempts, now);
    ReachableStatesAreSafe(run);
    ReadsAreStale(run, act);
    assert PartyRow(p, party) in Reads(act) && ReportsRead(p, reported) in Reads(act);
    var db := Last(run).db;
    assert p < |db.parties| && PartyLater(party, db.parties[p]);
    SameLeader(party, db.parties[p]);
    CompletedRows(db, p, party, maxAttempts, now);
    forall c | c in reported ensures (p, c) in db.reports {
      ReportedAreThere(db, p, c);
    }
  }

  lemma SameLeader(a: Party, b: Party)
    requires PartyLater(a, b)
    ensures b.leader == a.leader
  {
  }

  lemma ReportedAreThere(db: Db, p: nat, c: int)
    requires c in ReportedBy(db, p)
    ensures (p, c) in db.reports
  {
  }

  lemma CompletedRows(db: Db, p: nat, party: Party, maxAttempts: int, now: int)
    requires p < |db.parties| && CompleteTx(db, p, party, maxAttempts, now).Ok? ==> db.parties[p].leader == party.leader
    ensures var r := CompleteTx(db, p, party, maxAttempts, now);
            r.Ok? ==>
              && p < |r.value.parties|
              && r.value.parties[p].state == Completed && r.value.parties[p].leader == party.leader
              && r.value.parties[p].closedAt == Some(now)
              && r.value.jobs == db.jobs + [Job(SettleParty, p, Queued, 0, maxAttempts, now, "", None)]
              && r.value.reports == db.reports
  {
  }

  lemma NewPartiesHaveNoRoster(w: World)
    requires Inv(w)
    ensures |w.db.parties| !in w.db.rosters
  {
    hide WindowsOk, PartiesOk, FeesOk, PartyJobsOk, RefsOk, UniqueTopics, IncidentsOk, RecordsOk, QueueOk;
  }

  lemma WindowsStay(later: Run, run: Run, w: nat, trail: nat, day: int)
    requires Sound(later) && Continues(later, run) && w < |Last(run).db.windows|
    requires Last(run).db.windows[w].trail == trail && Last(run).db.windows[w].day == day
    ensures FindWindow(Last(later).db.windows, trail, day).Some?
  {
    hide Inv, Perform, FindWindow, Sound, Last;
    ReachableStatesAreSafe(later);
    SawStays(later, run, Last(run).db);
    var ws := Last(later).db.windows;
    assert WindowLater(Last(run).db.windows[w], ws[w]);
  }

  lemma WindowIsThere(ws: seq<Window>, trail: nat, day: int, quota: int)
    requires quota > 0
    ensures var r := InsertWindow(ws, trail, day, quota);
            && FindWindow(if r.Ok? then r.value else ws, trail, day).Some?
            && (r.Ok? ==> FindWindow(r.value, trail, day) == Some(|ws|))
  {
  }

  lemma GrantedView(run: Run, r: PermitRequest, roster: Roster, inTime: bool)
    requires Sound(run) && Allowed(run, Action.RequestPermit(r, roster, inTime)) && PermitTx(Last(run).db, r).Ok?
    ensures var db' := PermitTx(Last(run).db, r).value;
            && r.p < |db'.parties|
            && db'.parties[r.p].window == Some(r.w) && db'.parties[r.p].state == PermitReserved
            && db'.parties[r.p].leader == r.party.leader && db'.parties[r.p].size == r.party.size
            && var roster := RosterOf(db', r.p); |roster| == r.party.size && forall m :: m in roster ==> roster[m]
  {
    hide DbOk, QueueOk, NeverUndone, Later, Last, Sound;
    var act := Action.RequestPermit(r, roster, inTime);
    ReachableStatesAreSafe(run);
    ReadsAreStale(run, act);
    assert PartyRow(r.p, r.party) in Reads(act) && RosterRead(r.p, roster) in Reads(act);
    Preservation.RostersAgree(Last(run).db, r.p, r.party.size, roster);
  }
}
