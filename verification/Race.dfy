/** Clients racing for the seats of one open window. Each reads the window's
    version, tries to reserve, and starts over after a version conflict, as often
    as there are clients. The schedule decides who moves next. */
module Race {
  import opened Errors
  import opened Tables
  import opened Repositories
  import opened Arithmetic

  datatype Client =
    | Reading(conflicts: nat)
    | Trying(conflicts: nat, version: nat)
    | Served
    | Refused(code: Code)
    | GaveUp

  datatype Race = Race(windows: seq<Window>, clients: seq<Client>)

  predicate Finished(c: Client) {
    c.Served? || c.Refused? || c.GaveUp?
  }

  /** Client `i` makes its next access to the window `w`. */
  function Move(r: Race, w: nat, seats: int, i: nat): Race
    requires w < |r.windows|
  {
    if i >= |r.clients| then r
    else
      match r.clients[i]
      case Reading(k) => r.(clients := r.clients[i := Trying(k, r.windows[w].version)])
      case Trying(k, version) =>
        (match ReserveSeats(r.windows, w, version, seats)
         case Ok(ws) => Race(ws, r.clients[i := Served])
         case Err(VersionConflict) =>
           r.(clients := r.clients[i := if k + 1 < |r.clients| then Reading(k + 1) else GaveUp])
         case Err(code) => r.(clients := r.clients[i := Refused(code)]))
      case _ => r
  }

  /** The state after a whole schedule. */
  function After(r: Race, w: nat, seats: int, schedule: seq<nat>): (end: Race)
    requires w < |r.windows|
    ensures |end.windows| == |r.windows| && |end.clients| == |r.clients|
  {
    if schedule == [] then r else Move(After(r, w, seats, schedule[..|schedule| - 1]), w, seats,
                                       schedule[|schedule| - 1])
  }

  function Begin(ws: seq<Window>, n: nat): (r: Race)
    ensures r.windows == ws && |r.clients| == n
    ensures forall i :: 0 <= i < n ==> r.clients[i] == Reading(0)
  {
    Race(ws, seq(n, _ => Reading(0)))
  }

  /** How many of the clients have their seats. */
  function Winners(cs: seq<Client>): nat {
    if cs == [] then 0 else Winners(cs[..|cs| - 1]) + (if cs[|cs| - 1].Served? then 1 else 0)
  }

  lemma {:induction false} WinnersAfterUpdate(cs: seq<Client>, i: nat, c: Client)
    requires i < |cs|
    ensures Winners(cs[i := c]) == Winners(cs) - (if cs[i].Served? then 1 else 0) + (if c.Served? then 1 else 0)
  {
    var n := |cs| - 1;
    if i == n {
      assert cs[i := c][..n] == cs[..n];
    } else {
      assert cs[i := c][..n] == cs[..n][i := c];
      WinnersAfterUpdate(cs[..n], i, c);
    }
  }

  lemma {:induction false} SomeLoser(cs: seq<Client>, i: nat)
    requires i < |cs| && !cs[i].Served?
    ensures Winners(cs) < |cs|
  {
    WinnersAtMost(cs[..|cs| - 1]);
    if i < |cs| - 1 {
      SomeLoser(cs[..|cs| - 1], i);
    }
  }

  lemma {:induction false} WinnersAtMost(cs: seq<Client>)
    ensures Winners(cs) <= |cs|
  {
    if cs != [] {
      WinnersAtMost(cs[..|cs| - 1]);
    }
  }

  lemma {:induction false} AllWinners(cs: seq<Client>)
    requires forall i :: 0 <= i < |cs| ==> cs[i].Served?
    ensures Winners(cs) == |cs|
  {
    if cs != [] {
      AllWinners(cs[..|cs| - 1]);
    }
  }

  lemma {:induction false} NoWinners(cs: seq<Client>)
    requires forall i :: 0 <= i < |cs| ==> !cs[i].Served?
    ensures Winners(cs) == 0
  {
    if cs != [] {
      NoWinners(cs[..|cs| - 1]);
    }
  }

  /** A client's conflicts are paid for by others: one that read version `v` has had
      no more of them than reservations were made up to `v`. */
  predicate ClientOk(c: Client, opening: Window, now: Window, wins: nat, seats: int) {
    match c
    case Reading(k) => k <= wins
    case Trying(k, version) => opening.version + k <= version <= now.version
    case Served => true
    case Refused(code) => code == QuotaExhausted && now.reserved + seats > now.total
    case GaveUp => false
  }

  function Taken(seats: int, wins: nat): int {
    seats * wins
  }

  lemma TakenGrows(seats: int, wins: nat)
    ensures Taken(seats, wins + 1) == Taken(seats, wins) + seats
    ensures Taken(seats, 0) == 0
  {
  }

  ghost predicate RaceOk(r: Race, w: nat, opening: Window, seats: int)
    requires w < |r.windows|
  {
    var now, wins := r.windows[w], Winners(r.clients);
    && now == opening.(reserved := opening.reserved + Taken(seats, wins), version := opening.version + wins)
    && now.reserved <= now.total
    && forall i :: 0 <= i < |r.clients| ==> ClientOk(r.clients[i], opening, now, wins, seats)
  }

  lemma MoveKeeps(r: Race, w: nat, opening: Window, seats: int, i: nat)
    requires w < |r.windows| && seats > 0 && opening.closedAt.None? && RaceOk(r, w, opening, seats)
    ensures RaceOk(Move(r, w, seats, i), w, opening, seats)
  {
    hide Taken;
    if i < |r.clients| && !Finished(r.clients[i]) {
      assert ClientOk(r.clients[i], opening, r.windows[w], Winners(r.clients), seats);
      var next := Move(r, w, seats, i);
      WinnersAfterUpdate(r.clients, i, next.clients[i]);
      SomeLoser(r.clients, i);
      assert next.clients == r.clients[i := next.clients[i]];
      TakenGrows(seats, Winners(r.clients));
      forall k | 0 <= k < |next.clients|
        ensures ClientOk(next.clients[k], opening, next.windows[w], Winners(next.clients), seats)
      {
        assert ClientOk(r.clients[k], opening, r.windows[w], Winners(r.clients), seats);
      }
    }
  }

  lemma {:induction false} AfterKeeps(r: Race, w: nat, opening: Window, seats: int, schedule: seq<nat>)
    requires w < |r.windows| && seats > 0 && opening.closedAt.None? && RaceOk(r, w, opening, seats)
    ensures RaceOk(After(r, w, seats, schedule), w, opening, seats)
  {
    hide Move, RaceOk;
    if schedule != [] {
      var front := schedule[..|schedule| - 1];
      AfterKeeps(r, w, opening, seats, front);
      MoveKeeps(After(r, w, seats, front), w, opening, seats, schedule[|schedule| - 1]);
    }
  }

  lemma BeginIsOk(ws: seq<Window>, w: nat, seats: int, n: nat)
    requires w < |ws| && ws[w].reserved <= ws[w].total
    ensures RaceOk(Begin(ws, n), w, ws[w], seats)
  {
    NoWinners(Begin(ws, n).clients);
    TakenGrows(seats, 0);
  }

  /** At every moment of every schedule the seats taken are exactly those of the
      clients served, never more than the window has, no client has run out of
      tries, and one that was refused was refused because the seats were gone. */
  lemma RacesNeverOverbook(ws: seq<Window>, w: nat, seats: int, n: nat, schedule: seq<nat>)
    requires w < |ws| && ws[w].closedAt.None? && ws[w].reserved <= ws[w].total && seats > 0
    ensures var end := After(Begin(ws, n), w, seats, schedule);
            && end.windows[w].reserved == ws[w].reserved + seats * Winners(end.clients) <= ws[w].total
            && end.windows[w].version == ws[w].version + Winners(end.clients)
            && forall i :: 0 <= i < n ==>
                 && !end.clients[i].GaveUp?
                 && (end.clients[i].Refused? ==>
                       end.clients[i].code == QuotaExhausted && end.windows[w].reserved + seats > ws[w].total)
  {
    hide After, Begin;
    var begin := Begin(ws, n);
    BeginIsOk(ws, w, seats, n);
    AfterKeeps(begin, w, ws[w], seats, schedule);
    var end := After(begin, w, seats, schedule);
    forall i | 0 <= i < n ensures ClientOk(end.clients[i], ws[w], end.windows[w], Winners(end.clients), seats) {
    }
  }

  /** Whatever the schedule, once every client has finished exactly as many were
      served as fit: the outcome does not depend on the interleaving. */
  lemma RacesEndAlike(ws: seq<Window>, w: nat, seats: int, n: nat, schedule: seq<nat>)
    requires w < |ws| && ws[w].closedAt.None? && ws[w].reserved <= ws[w].total && seats > 0
    requires forall i :: 0 <= i < n ==> Finished(After(Begin(ws, n), w, seats, schedule).clients[i])
    ensures var end := After(Begin(ws, n), w, seats, schedule);
            var fit := (ws[w].total - ws[w].reserved) / seats;
            && Winners(end.clients) == (if n <= fit then n else fit)
            && end.windows[w].reserved == ws[w].reserved + seats * Winners(end.clients)
  {
    hide After, Begin;
    RacesNeverOverbook(ws, w, seats, n, schedule);
    var end := After(Begin(ws, n), w, seats, schedule);
    var wins, free := Winners(end.clients), ws[w].total - ws[w].reserved;
    WinnersAtMost(end.clients);
    assert seats * wins <= free;
    QuotientAtLeast(wins, seats, free);
    if forall i :: 0 <= i < n ==> end.clients[i].Served? {
      AllWinners(end.clients);
    } else {
      var i :| 0 <= i < n && !end.clients[i].Served?;
      assert Finished(end.clients[i]) && end.clients[i].Refused?;
      assert seats * (wins + 1) == seats * wins + seats > free;
      SomeLoser(end.clients, i);
      QuotientAtMost(wins, seats, free);
    }
  }

  // ---------- every race ends ----------

  /** The accesses a client may still make. */
  function Left(c: Client, n: nat): nat {
    match c
    case Reading(k) => if k < n then 2 * (n - k) else 1
    case Trying(k, _) => if k < n then 2 * (n - k) - 1 else 1
    case _ => 0
  }

  function LeftOf(cs: seq<Client>, n: nat): nat {
    if cs == [] then 0 else LeftOf(cs[..|cs| - 1], n) + Left(cs[|cs| - 1], n)
  }

  lemma {:induction false} LeftAfterUpdate(cs: seq<Client>, i: nat, c: Client, n: nat)
    requires i < |cs|
    ensures LeftOf(cs[i := c], n) == LeftOf(cs, n) - Left(cs[i], n) + Left(c, n)
  {
    var m := |cs| - 1;
    if i == m {
      assert cs[i := c][..m] == cs[..m];
    } else {
      assert cs[i := c][..m] == cs[..m][i := c];
      LeftAfterUpdate(cs[..m], i, c, n);
    }
  }

  /** No client has used up its tries. */
  predicate Budgeted(cs: seq<Client>, n: nat) {
    forall i :: 0 <= i < |cs| && (cs[i].Reading? || cs[i].Trying?) ==> cs[i].conflicts < n
  }

  /** A move of a client that has not finished uses up one of its accesses. */
  lemma MovesUseUpTries(r: Race, w: nat, seats: int, i: nat)
    requires w < |r.windows| && i < |r.clients| && !Finished(r.clients[i]) && Budgeted(r.clients, |r.clients|)
    ensures var next := Move(r, w, seats, i);
            && LeftOf(next.clients, |r.clients|) < LeftOf(r.clients, |r.clients|)
            && Budgeted(next.clients, |r.clients|)
  {
    var next := Move(r, w, seats, i);
    LeftAfterUpdate(r.clients, i, next.clients[i], |r.clients|);
    assert next.clients == r.clients[i := next.clients[i]];
  }

  /** Only clients that have not finished are scheduled. */
  predicate Busy(r: Race, w: nat, seats: int, schedule: seq<nat>)
    requires w < |r.windows|
  {
    schedule == []
    || (var front := schedule[..|schedule| - 1]; var i := schedule[|schedule| - 1];
        && Busy(r, w, seats, front)
        && i < |r.clients| && !Finished(After(r, w, seats, front).clients[i]))
  }

  lemma {:induction false} BusyUsesUpTries(r: Race, w: nat, seats: int, schedule: seq<nat>)
    requires w < |r.windows| && Budgeted(r.clients, |r.clients|) && Busy(r, w, seats, schedule)
    ensures |schedule| + LeftOf(After(r, w, seats, schedule).clients, |r.clients|) <= LeftOf(r.clients, |r.clients|)
    ensures Budgeted(After(r, w, seats, schedule).clients, |r.clients|)
  {
    hide Move, Budgeted;
    if schedule != [] {
      var front := schedule[..|schedule| - 1];
      BusyUsesUpTries(r, w, seats, front);
      MovesUseUpTries(After(r, w, seats, front), w, seats, schedule[|schedule| - 1]);
    }
  }

  lemma {:induction false} LeftAtFirst(cs: seq<Client>, n: nat)
    requires n > 0 && forall i :: 0 <= i < |cs| ==> cs[i] == Reading(0)
    ensures LeftOf(cs, n) == 2 * n * |cs|
  {
    if cs == [] {
      assert 2 * n * 0 == 0;
    } else {
      LeftAtFirst(cs[..|cs| - 1], n);
      assert 2 * n * |cs| == 2 * n * (|cs| - 1) + 2 * n;
    }
  }

  lemma OneMoreMove(r: Race, w: nat, seats: int, schedule: seq<nat>, i: nat)
    requires w < |r.windows| && Busy(r, w, seats, schedule)
    requires i < |r.clients| && !Finished(After(r, w, seats, schedule).clients[i])
    ensures Busy(r, w, seats, schedule + [i])
    ensures After(r, w, seats, schedule + [i]).clients[i] != After(r, w, seats, schedule).clients[i]
  {
    assert (schedule + [i])[..|schedule|] == schedule;
  }

  /** Every race ends: an unfinished client can always make a further move, no
      schedule of such moves is longer than 2 n * n, and after that many every client
      has finished. */
  lemma RacesEnd(ws: seq<Window>, w: nat, seats: int, n: nat, schedule: seq<nat>)
    requires w < |ws| && Busy(Begin(ws, n), w, seats, schedule)
    ensures |schedule| <= 2 * n * n
    ensures var begin := Begin(ws, n); var end := After(begin, w, seats, schedule);
            && (forall i: nat :: i < n && !Finished(end.clients[i]) ==>
                  && Busy(begin, w, seats, schedule + [i])
                  && After(begin, w, seats, schedule + [i]).clients[i] != end.clients[i])
            && (|schedule| == 2 * n * n ==> forall i :: 0 <= i < n ==> Finished(end.clients[i]))
  {
    hide After, Begin, Busy, Finished;
    var begin := Begin(ws, n);
    RacesAreShort(ws, w, seats, n, schedule);
    forall i: nat | i < n && !Finished(After(begin, w, seats, schedule).clients[i])
      ensures Busy(begin, w, seats, schedule + [i]) && |schedule| + 1 <= 2 * n * n
      ensures After(begin, w, seats, schedule + [i]).clients[i] != After(begin, w, seats, schedule).clients[i]
    {
      OneMoreMove(begin, w, seats, schedule, i);
      RacesAreShort(ws, w, seats, n, schedule + [i]);
    }
  }

  lemma RacesAreShort(ws: seq<Window>, w: nat, seats: int, n: nat, schedule: seq<nat>)
    requires w < |ws| && Busy(Begin(ws, n), w, seats, schedule)
    ensures |schedule| <= 2 * n * n
  {
    hide After, Begin, Busy;
    if n > 0 {
      LeftAtFirst(Begin(ws, n).clients, n);
      BusyUsesUpTries(Begin(ws, n), w, seats, schedule);
    } else {
      IdleWithoutClients(Begin(ws, n), w, seats, schedule);
    }
  }

  lemma IdleWithoutClients(r: Race, w: nat, seats: int, schedule: seq<nat>)
    requires w < |r.windows| && r.clients == [] && Busy(r, w, seats, schedule)
    ensures schedule == []
  {
  }
}
