/** Checkpoint lists, deadlines and the search for the first missed one. Instants
    are nanoseconds; planned starts are whole seconds, as stored. */
module Overdue {
  import opened Errors
  import opened Tables
  import opened Transactions
  import opened Runs

  const MINUTE := 60 * SECOND

  datatype CheckpointInput = CheckpointInput(name: string, node: Checkpoint)

  // ---------- accepted lists ----------

  /** Sequence numbers and cutoffs start above zero and rise strictly. */
  ghost predicate Rising(nodes: seq<Checkpoint>) {
    && (forall i :: 0 <= i < |nodes| ==> nodes[i].seq_ > 0 && nodes[i].cutoffMinutes > 0)
    && (forall i, j :: 0 <= i < j < |nodes| ==>
          nodes[i].seq_ < nodes[j].seq_ && nodes[i].cutoffMinutes < nodes[j].cutoffMinutes)
  }

  function Nodes(items: seq<CheckpointInput>): (nodes: seq<Checkpoint>)
    ensures |nodes| == |items| && forall i :: 0 <= i < |items| ==> nodes[i] == items[i].node
  {
    seq(|items|, i requires 0 <= i < |items| => items[i].node)
  }

  /** Comparing neighbours is enough. */
  lemma RisingExtends(nodes: seq<Checkpoint>, c: Checkpoint)
    ensures Rising(nodes + [c]) <==>
            && Rising(nodes)
            && c.seq_ > (if nodes == [] then 0 else nodes[|nodes| - 1].seq_)
            && c.cutoffMinutes > (if nodes == [] then 0 else nodes[|nodes| - 1].cutoffMinutes)
  {
    var all := nodes + [c];
    assert forall i :: 0 <= i < |nodes| ==> all[i] == nodes[i];
    assert all[|nodes|] == c;
    if Rising(all) && nodes != [] {
      assert all[|nodes| - 1].seq_ < all[|nodes|].seq_;
    }
  }

  lemma RisingPrefix(nodes: seq<Checkpoint>, n: nat)
    requires Rising(nodes) && n <= |nodes|
    ensures Rising(nodes[..n])
  {
  }

  /** Accepts exactly the rising lists of named nodes with a mandatory one, although
      the loop only compares neighbours. */
  method ValidateCheckpoints(items: seq<CheckpointInput>) returns (res: Result<()>)
    ensures res.Ok? <==>
              && Rising(Nodes(items))
              && (forall i :: 0 <= i < |items| ==> !Blank(items[i].name))
              && (exists i :: 0 <= i < |items| && items[i].node.mandatory)
    ensures res.Err? ==> res.code == InvalidArgument
  {
    hide Rising, Blank;
    var previousSeq, previousCutoff, mandatory := 0, 0, 0;
    ghost var nodes := Nodes(items);
    RisingNothing();
    assert nodes[..0] == [];
    for n := 0 to |items|
      invariant n == 0 ==> previousSeq == 0 && previousCutoff == 0
      invariant n > 0 ==> previousSeq == nodes[n - 1].seq_ && previousCutoff == nodes[n - 1].cutoffMinutes
      invariant Rising(nodes[..n])
      invariant forall i :: 0 <= i < n ==> !Blank(items[i].name)
      invariant mandatory >= 0 && (mandatory > 0 <==> exists i :: 0 <= i < n && items[i].node.mandatory)
    {
      var item := items[n].node;
      RisingExtends(nodes[..n], item);
      assert nodes[..n] + [item] == nodes[..n + 1];
      if item.seq_ <= previousSeq || Blank(items[n].name) || item.cutoffMinutes <= previousCutoff {
        if Rising(nodes) {
          RisingPrefix(nodes, n + 1);
        }
        return Err(InvalidArgument);
      }
      if item.mandatory {
        mandatory := mandatory + 1;
      }
      previousSeq, previousCutoff := item.seq_, item.cutoffMinutes;
    }
    assert nodes[..|items|] == nodes;
    res := if mandatory == 0 then Err(InvalidArgument) else Ok(());
  }

  lemma RisingNothing()
    ensures Rising([])
  {
  }

  // ---------- reports ----------

  function Deadline(plannedStart: int, cutoffMinutes: int): int {
    plannedStart * SECOND + cutoffMinutes * MINUTE
  }

  function ClassifyReport(plannedStart: int, reportedAt: int, cutoffMinutes: int, graceMinutes: int): ReportStatus {
    var deadline := Deadline(plannedStart, cutoffMinutes);
    if reportedAt <= deadline then OnTime
    else if reportedAt <= deadline + graceMinutes * MINUTE then Late
    else Missed
  }

  /** An instant cut to whole seconds, as report times are. */
  function Truncate(nanos: int): int {
    Unix(nanos) * SECOND
  }

  // ---------- the search ----------

  /** What the search looks for: mandatory, not reported, past its deadline and grace. */
  predicate Open(c: Checkpoint, reported: set<int>) {
    c.mandatory && c.seq_ !in reported
  }

  /** The planned start is in seconds, the cutoff in minutes, grace and now in nanoseconds. */
  predicate IsOverdue(c: Checkpoint, reported: set<int>, plannedStart: int, grace: int, now: int) {
    && c.mandatory && c.seq_ !in reported
    && now > (plannedStart + 60 * c.cutoffMinutes) * 1_000_000_000 + grace
  }

  /** The first overdue node in list order. */
  function FirstOverdue(cs: seq<Checkpoint>, reported: set<int>, plannedStart: int, grace: int,
                        now: int): Option<Checkpoint> {
    if cs == [] then None
    else if IsOverdue(cs[0], reported, plannedStart, grace, now) then Some(cs[0])
    else FirstOverdue(cs[1..], reported, plannedStart, grace, now)
  }

  method FirstOverdueCheckpoint(cs: seq<Checkpoint>, reported: set<int>, plannedStart: int, grace: int, now: int)
    returns (found: Option<Checkpoint>, deadline: int)
    ensures found == FirstOverdue(cs, reported, plannedStart, grace, now)
    ensures found.Some? ==> deadline == Deadline(plannedStart, found.value.cutoffMinutes) + grace < now
  {
    deadline := 0;
    assert cs[0..] == cs;
    for i := 0 to |cs|
      invariant FirstOverdue(cs, reported, plannedStart, grace, now) == FirstOverdue(cs[i..], reported, plannedStart,
                                                                                     grace, now)
    {
      var c := cs[i];
      assert cs[i..][1..] == cs[i + 1..];
      if !c.mandatory || c.seq_ in reported {
        continue;
      }
      deadline := Deadline(plannedStart, c.cutoffMinutes) + grace;
      if now > deadline {
        return Some(c), deadline;
      }
    }
    found := None;
  }

  /** The node at `k` is overdue and none before it is. */
  ghost predicate FirstAt(cs: seq<Checkpoint>, reported: set<int>, plannedStart: int, grace: int, now: int, k: nat) {
    && k < |cs| && IsOverdue(cs[k], reported, plannedStart, grace, now)
    && forall i :: 0 <= i < k ==> !IsOverdue(cs[i], reported, plannedStart, grace, now)
  }

  lemma FirstIsFound(cs: seq<Checkpoint>, reported: set<int>, plannedStart: int, grace: int, now: int, k: nat)
    requires FirstAt(cs, reported, plannedStart, grace, now, k)
    ensures FirstOverdue(cs, reported, plannedStart, grace, now) == Some(cs[k])
  {
    hide IsOverdue;
    var found := SearchIsComplete(cs, reported, plannedStart, grace, now);
    assert found == k;
  }

  /** In every list the search finds nothing exactly when nothing is overdue, and
      otherwise an overdue node with none before it. */
  lemma {:induction false} SearchIsComplete(cs: seq<Checkpoint>, reported: set<int>, plannedStart: int, grace: int,
                                            now: int)
    returns (k: nat)
    ensures var r := FirstOverdue(cs, reported, plannedStart, grace, now);
            if r.Some? then FirstAt(cs, reported, plannedStart, grace, now, k) && cs[k] == r.value
            else forall i :: 0 <= i < |cs| ==> !IsOverdue(cs[i], reported, plannedStart, grace, now)
  {
    k := 0;
    if cs != [] && !IsOverdue(cs[0], reported, plannedStart, grace, now) {
      var rest := cs[1..];
      var later := SearchIsComplete(rest, reported, plannedStart, grace, now);
      assert forall i :: 1 <= i < |cs| ==> cs[i] == rest[i - 1];
      k := later + 1;
    }
  }

  /** In an accepted list the node found has the least deadline of all mandatory
      nodes not reported yet, overdue or not. */
  lemma SearchIsMinimal(cs: seq<Checkpoint>, reported: set<int>, plannedStart: int, grace: int, now: int, c: Checkpoint)
    requires Rising(cs) && FirstOverdue(cs, reported, plannedStart, grace, now).Some?
    requires c in cs && Open(c, reported)
    ensures var found := FirstOverdue(cs, reported, plannedStart, grace, now).value;
            Deadline(plannedStart, found.cutoffMinutes) <= Deadline(plannedStart, c.cutoffMinutes)
  {
    var k := SearchIsComplete(cs, reported, plannedStart, grace, now);
    var i :| 0 <= i < |cs| && cs[i] == c;
    assert i > k ==> cs[k].cutoffMinutes < cs[i].cutoffMinutes;
  }

  /** The sweep looks at the exact instant and a report at whole seconds. A node is
      found overdue without a report of that moment counting as missed exactly
      during the first second after deadline and grace, never at a whole second. */
  lemma SweepAgainstReport(c: Checkpoint, reported: set<int>, plannedStart: int, graceMinutes: int, now: int)
    requires Open(c, reported)
    ensures var over := Deadline(plannedStart, c.cutoffMinutes) + graceMinutes * MINUTE;
            var overdue := IsOverdue(c, reported, plannedStart, graceMinutes * MINUTE, now);
            var missed := ClassifyReport(plannedStart, Truncate(now), c.cutoffMinutes, graceMinutes) == Missed;
            && (overdue && graceMinutes >= 0 && !missed <==> graceMinutes >= 0 && over < now < over + SECOND)
            && (missed ==> overdue)
            && (now % SECOND == 0 && graceMinutes >= 0 ==> (overdue <==> missed))
  {
  }
}
