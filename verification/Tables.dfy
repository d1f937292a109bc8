/** The rows of the database. A table with an AUTOINCREMENT key that is never
    deleted from is a sequence whose index is the row's identifier; a table whose
    unique index decides inserts is a map keyed by that index. Times are whole
    seconds, as stored. */
module Tables {
  import opened Errors
  import opened Domain

  /** A reporting node of a trail; trails are configuration here, not a table. */
  datatype Checkpoint = Checkpoint(seq_: int, cutoffMinutes: int, mandatory: bool)

  datatype Window = Window(
    trail: nat,
    day: int,
    total: int,
    reserved: int,
    version: nat,
    closedAt: Option<int>)

  datatype Party = Party(
    trail: nat,
    leader: nat,
    day: int,
    plannedStart: int,
    size: int,
    state: PartyState,
    version: nat,
    window: Option<nat>,
    confirmedAt: Option<int>,
    dispatchedAt: Option<int>,
    closedAt: Option<int>)

  datatype Settlement = Settlement(
    seats: int,
    unitFee: int,
    total: int,
    state: SettlementState,
    reference: string,
    note: string,
    settledAt: Option<int>,
    version: nat)

  datatype Incident = Incident(
    party: nat,
    kind: string,
    severity: Severity,
    checkpoint: int,
    state: IncidentState,
    count: nat,
    resolution: string,
    resolvedAt: Option<int>,
    version: nat)

  datatype ReportStatus = OnTime | Late | Missed

  /** One accepted progress report, keyed by party and checkpoint. */
  datatype Progress = Progress(status: ReportStatus, headCount: int, reportedAt: int)

  /** `ref` is the party or the incident named by the payload. */
  datatype Job = Job(
    kind: JobKind,
    ref: nat,
    state: JobState,
    attempts: nat,
    maxAttempts: int,
    runAt: int,
    lockedBy: string,
    lockedUntil: Option<int>)

  /** Member reference to "waiver signed", unique per party. */
  type Roster = map<string, bool>

  /** The stored response of an accepted permit request. */
  datatype View = View(party: nat, row: Party, roster: Roster, window: Window)

  datatype Key = Key(text: string, actor: nat)

  /** `party` and `size` stand for the request fingerprint. */
  datatype Record = Record(party: nat, size: int, body: View, expiresAt: int)

  datatype Db = Db(
    windows: seq<Window>,
    parties: seq<Party>,
    rosters: map<nat, Roster>,
    reports: map<(nat, int), Progress>,
    settlements: map<nat, Settlement>,
    incidents: seq<Incident>,
    jobs: seq<Job>,
    records: map<Key, Record>)

  const EMPTY: Db := Db([], [], map[], map[], map[], [], [], map[])

  function RosterIn(rosters: map<nat, Roster>, p: nat): Roster {
    if p in rosters then rosters[p] else map[]
  }

  function RosterOf(db: Db, p: nat): Roster {
    RosterIn(db.rosters, p)
  }

  /** The checkpoints a party has reported. */
  function ReportedBy(db: Db, p: nat): set<int> {
    set r | r in db.reports && r.0 == p :: r.1
  }

  /** The identifiers of the jobs of one kind for one party or incident. */
  ghost function JobsFor(jobs: seq<Job>, kind: JobKind, ref: nat): set<nat> {
    set j: nat | j < |jobs| && jobs[j].kind == kind && jobs[j].ref == ref
  }
}
