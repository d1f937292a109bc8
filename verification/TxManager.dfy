/** Nested units of work. The outermost call opens, commits or rolls back the
    transaction; calls inside it join it. */
module UnitOfWork {
  import opened Errors
  import opened Tables
  import opened Transactions

  /** A statement against the database, refused without effect when it fails. */
  type Statement = Db -> Result<Db>

  datatype Ending = Committed | AlreadyEnded | CommitFailed

  /** What a function run by the manager does. `WithTx` is a call of the manager
      itself; should it turn out to be the outermost one, `begins` and `ending` say
      whether the database could open and commit the transaction. */
  datatype Program =
    | Nothing
    | Return(code: Code)
    | Panic
    | Execute(statement: Statement)
    | Sequence(first: Program, second: Program)
    | OnError(attempt: Program, handler: Program)
    | WithTx(body: Program, begins: bool, ending: Ending)

  datatype Outcome = Done | Failed(code: Code) | Panicked

  /** Running inside a transaction: nested calls just run their function. */
  function Inside(p: Program, db: Db): (Db, Outcome) {
    match p
    case Nothing => (db, Done)
    case Return(code) => (db, Failed(code))
    case Panic => (db, Panicked)
    case Execute(statement) => (Commit(db, statement(db)),
                                if statement(db).Ok? then Done else Failed(statement(db).code))
    case Sequence(first, second) =>
      var (mid, o) := Inside(first, db);
      if o == Done then Inside(second, mid) else (mid, o)
    case OnError(attempt, handler) =>
      var (mid, o) := Inside(attempt, db);
      if o.Failed? then Inside(handler, mid) else (mid, o)
    case WithTx(body, _, _) => Inside(body, db)
  }

  /** A call of the manager with no transaction open. */
  function Root(body: Program, begins: bool, ending: Ending, db: Db): (Db, Outcome) {
    var (after, o) := Inside(body, db);
    if !begins then (db, Failed(Unavailable))
    else if o != Done then (db, o)
    else
      match ending
      case Committed => (after, Done)
      case AlreadyEnded => (db, Failed(Conflict))
      case CommitFailed => (db, Failed(Unavailable))
  }

  /** Running with no transaction open: every statement and every call stands alone. */
  function Outside(p: Program, db: Db): (Db, Outcome) {
    match p
    case Sequence(first, second) =>
      var (mid, o) := Outside(first, db);
      if o == Done then Outside(second, mid) else (mid, o)
    case OnError(attempt, handler) =>
      var (mid, o) := Outside(attempt, db);
      if o.Failed? then Outside(handler, mid) else (mid, o)
    case WithTx(body, begins, ending) => Root(body, begins, ending, db)
    case _ => Inside(p, db)
  }

  class TxManager {
    /** What is committed, and the state the open transaction works on. */
    var db: Db
    var tx: Db

    constructor (db: Db)
      ensures this.db == db
    {
      this.db, this.tx := db, db;
    }

    /** Runs one statement on the open transaction if there is one. */
    method Query(statement: Statement, inTx: bool) returns (o: Outcome)
      modifies this
      ensures inTx ==> db == old(db) && (tx, o) == Inside(Execute(statement), old(tx))
      ensures !inTx ==> (db, o) == Outside(Execute(statement), old(db))
    {
      var r := statement(if inTx then tx else db);
      if r.Err? {
        return Failed(r.code);
      }
      if inTx {
        tx := r.value;
      } else {
        db := r.value;
      }
      o := Done;
    }

    method Run(p: Program, inTx: bool) returns (o: Outcome)
      modifies this
      decreases p, 1
      ensures inTx ==> db == old(db) && (tx, o) == Inside(p, old(tx))
      ensures !inTx ==> (db, o) == Outside(p, old(db))
    {
      match p
      case Nothing => o := Done;
      case Return(code) => o := Failed(code);
      case Panic => o := Panicked;
      case Execute(statement) => o := Query(statement, inTx);
      case Sequence(first, second) =>
        o := Run(first, inTx);
        if o == Done {
          o := Run(second, inTx);
        }
      case OnError(attempt, handler) =>
        o := Run(attempt, inTx);
        if o.Failed? {
          o := Run(handler, inTx);
        }
      case WithTx(body, begins, ending) => o := RunInTx(body, begins, ending, inTx);
    }

    /** The rollback happens whenever the commit was not reached, panics included. */
    method RunInTx(body: Program, begins: bool, ending: Ending, inTx: bool) returns (o: Outcome)
      modifies this
      decreases body, 2
      ensures inTx ==> db == old(db) && (tx, o) == Inside(body, old(tx))
      ensures !inTx ==> (db, o) == Root(body, begins, ending, old(db))
      ensures !inTx && o != Done ==> db == old(db)
    {
      if inTx {
        o := Run(body, true);
        return;
      }
      if !begins {
        return Failed(Unavailable);
      }
      tx := db;
      o := Run(body, true);
      if o != Done {
        return;
      }
      if ending != Committed {
        return Failed(if ending == AlreadyEnded then Conflict else Unavailable);
      }
      db := tx;
    }
  }

  // ---------- flattening ----------

  /** The statements that took effect, in order. */
  function Effects(p: Program, db: Db): seq<Statement> {
    match p
    case Execute(statement) => if statement(db).Ok? then [statement] else []
    case Sequence(first, second) =>
      Effects(first, db) + if Inside(first, db).1 == Done then Effects(second, Inside(first, db).0) else []
    case OnError(attempt, handler) =>
      Effects(attempt, db) + if Inside(attempt, db).1.Failed? then Effects(handler, Inside(attempt, db).0) else []
    case WithTx(body, _, _) => Effects(body, db)
    case _ => []
  }

  /** All statements one after the other, without any transaction. */
  function Flat(statements: seq<Statement>, db: Db): Db {
    if statements == [] then db
    else Flat(statements[1..], Commit(db, statements[0](db)))
  }

  lemma {:induction false} FlatInTwo(a: seq<Statement>, b: seq<Statement>, db: Db)
    ensures Flat(a + b, db) == Flat(b, Flat(a, db))
  {
    if a == [] {
      assert a + b == b;
    } else {
      assert (a + b)[1..] == a[1..] + b;
      FlatInTwo(a[1..], b, Commit(db, a[0](db)));
    }
  }

  lemma {:induction false} InsideIsFlat(p: Program, db: Db)
    ensures Inside(p, db).0 == Flat(Effects(p, db), db)
  {
    match p
    case Sequence(first, second) =>
      InsideIsFlat(first, db);
      if Inside(first, db).1 == Done {
        InsideIsFlat(second, Inside(first, db).0);
        FlatInTwo(Effects(first, db), Effects(second, Inside(first, db).0), db);
      } else {
        assert Effects(first, db) + [] == Effects(first, db);
      }
    case OnError(attempt, handler) =>
      InsideIsFlat(attempt, db);
      if Inside(attempt, db).1.Failed? {
        InsideIsFlat(handler, Inside(attempt, db).0);
        FlatInTwo(Effects(attempt, db), Effects(handler, Inside(attempt, db).0), db);
      } else {
        assert Effects(attempt, db) + [] == Effects(attempt, db);
      }
    case WithTx(body, _, _) => InsideIsFlat(body, db);
    case _ =>
  }

  /** However calls are nested and whatever errors are handled on the way: a root
      call that fails or panics leaves the database exactly as it was, and one that
      succeeds has run its effective statements flat, in order. */
  lemma UnitsOfWorkAreAtomic(body: Program, begins: bool, ending: Ending, db: Db)
    ensures var (after, o) := Outside(WithTx(body, begins, ending), db);
            && (o != Done ==> after == db)
            && (o == Done ==> after == Flat(Effects(body, db), db))
            && (o == Done <==> begins && ending == Committed && Inside(body, db).1 == Done)
  {
    InsideIsFlat(body, db);
  }

  /** The same program with every manager call below the root removed. */
  function Flattened(p: Program): Program {
    match p
    case Sequence(first, second) => Sequence(Flattened(first), Flattened(second))
    case OnError(attempt, handler) => OnError(Flattened(attempt), Flattened(handler))
    case WithTx(body, _, _) => Flattened(body)
    case _ => p
  }

  /** Nesting makes no difference inside a unit of work. */
  lemma {:induction false} NestingIsInvisible(p: Program, db: Db)
    ensures Inside(Flattened(p), db) == Inside(p, db)
  {
    match p
    case Sequence(first, second) =>
      NestingIsInvisible(first, db);
      NestingIsInvisible(second, Inside(first, db).0);
    case OnError(attempt, handler) =>
      NestingIsInvisible(attempt, db);
      NestingIsInvisible(handler, Inside(attempt, db).0);
    case WithTx(body, _, _) => NestingIsInvisible(body, db);
    case _ =>
  }

  /** Any error rolls back the whole unit of work only if it reaches the root: a
      failed inner call whose error is handled keeps what it wrote, where the same
      call on its own would have kept nothing. */
  lemma HandledInnerErrorsKeepWrites(db: Db, written: Db, code: Code)
    ensures var failing := WithTx(Sequence(Execute(_ => Ok(written)), Return(code)), true, Committed);
            && Outside(OnError(failing, Nothing), db) == (db, Done)
            && Outside(WithTx(OnError(failing, Nothing), true, Committed), db) == (written, Done)
  {
    var write := Execute(_ => Ok(written));
    var failing := WithTx(Sequence(write, Return(code)), true, Committed);
    assert Inside(write, db) == (written, Done);
    assert Inside(Sequence(write, Return(code)), db) == (written, Failed(code));
    assert Outside(failing, db) == (db, Failed(code));
    assert Inside(OnError(failing, Nothing), db) == (written, Done);
  }

  // ---------- when every error rolls back ----------

  /** No error is handled anywhere in the text of a program. */
  predicate HandlesNothing(p: Program) {
    match p
    case Sequence(first, second) => HandlesNothing(first) && HandlesNothing(second)
    case OnError(_, _) => false
    case WithTx(body, _, _) => HandlesNothing(body)
    case _ => true
  }

  /** A part of a program that was run, and the state it started in. */
  datatype Part = Part(program: Program, db: Db) {
    function Result(): Outcome {
      Inside(program, db).1
    }

    function State(): Db {
      Inside(program, db).0
    }
  }

  /** Everything that is run when a program runs inside a transaction, in order: the
      program itself, statements, handlers and inner calls of the manager. */
  function Parts(p: Program, db: Db): seq<Part> {
    [Part(p, db)] +
    match p
    case Sequence(first, second) =>
      Parts(first, db) + if Inside(first, db).1 == Done then Parts(second, Inside(first, db).0) else []
    case OnError(attempt, handler) =>
      Parts(attempt, db) + if Inside(attempt, db).1.Failed? then Parts(handler, Inside(attempt, db).0) else []
    case WithTx(body, _, _) => Parts(body, db)
    case _ => []
  }

  /** Without a handler in the text, the failure of any part is the result of the
      whole; with handlers, a panic still is. */
  lemma {:induction false} FailuresReachTheRoot(p: Program, db: Db, part: Part)
    requires part in Parts(p, db) && part.Result() != Done
    requires HandlesNothing(p) || part.Result() == Panicked
    ensures Inside(p, db).1 == part.Result()
  {
    if part != Part(p, db) {
      match p
      case Sequence(first, second) =>
        if part in Parts(first, db) {
          FailuresReachTheRoot(first, db, part);
        } else {
          FailuresReachTheRoot(second, Inside(first, db).0, part);
        }
      case OnError(attempt, handler) =>
        if part in Parts(attempt, db) {
          FailuresReachTheRoot(attempt, db, part);
        } else {
          FailuresReachTheRoot(handler, Inside(attempt, db).0, part);
        }
      case WithTx(body, _, _) => FailuresReachTheRoot(body, db, part);
    }
  }

  /** The whole unit of work is rolled back by any error, of a statement or of an
      inner call at any depth, if its text handles none, and by any panic in every
      case. */
  lemma AnyErrorRollsBack(body: Program, begins: bool, ending: Ending, db: Db, part: Part)
    requires part in Parts(body, db) && part.Result() != Done
    requires HandlesNothing(body) || part.Result() == Panicked
    ensures var (after, o) := Outside(WithTx(body, begins, ending), db);
            after == db && o == if begins then part.Result() else Failed(Unavailable)
  {
    FailuresReachTheRoot(body, db, part);
  }

  /** A handler that was reached and made good the failure of its attempt. */
  predicate Recovers(part: Part) {
    && part.program.OnError?
    && Inside(part.program.attempt, part.db).1.Failed?
    && part.Result() == Done
  }

  /** If a part failed and the whole succeeded, a handler whose attempt contains that
      part, and failed, was reached and succeeded. */
  lemma {:induction false} SomeHandlerRecovered(p: Program, db: Db, part: Part) returns (handler: Part)
    requires part in Parts(p, db) && part.Result() != Done && Inside(p, db).1 == Done
    ensures handler in Parts(p, db) && Recovers(handler) && part in Parts(handler.program.attempt, handler.db)
  {
    match p
    case Sequence(first, second) =>
      if part in Parts(first, db) {
        handler := SomeHandlerRecovered(first, db, part);
      } else {
        handler := SomeHandlerRecovered(second, Inside(first, db).0, part);
      }
    case OnError(attempt, recovery) =>
      if part in Parts(attempt, db) {
        if Inside(attempt, db).1 == Done {
          handler := SomeHandlerRecovered(attempt, db, part);
        } else {
          handler := Part(p, db);
        }
      } else {
        handler := SomeHandlerRecovered(recovery, Inside(attempt, db).0, part);
      }
    case WithTx(body, _, _) => handler := SomeHandlerRecovered(body, db, part);
    case _ => assert false; handler := part;
  }

  /** A successful unit of work contains a failed part exactly if a handler recovered
      in it: writes of a failed inner call survive in no other way. */
  lemma FailuresSurviveOnlyInHandlers(body: Program, db: Db)
    requires Outside(WithTx(body, true, Committed), db).1 == Done
    ensures (exists part :: part in Parts(body, db) && part.Result() != Done)
            <==> (exists handler :: handler in Parts(body, db) && Recovers(handler))
    ensures forall part :: part in Parts(body, db) && part.Result() != Done ==>
              exists handler :: handler in Parts(body, db) && Recovers(handler)
                                && part in Parts(handler.program.attempt, handler.db)
  {
    forall part | part in Parts(body, db) && part.Result() != Done
      ensures exists handler :: handler in Parts(body, db) && Recovers(handler)
                                && part in Parts(handler.program.attempt, handler.db)
    {
      var handler := SomeHandlerRecovered(body, db, part);
    }
    forall handler | handler in Parts(body, db) && Recovers(handler)
      ensures exists part :: part in Parts(body, db) && part.Result() != Done
    {
      var attempt := Part(handler.program.attempt, handler.db);
      PartsOfParts(body, db, handler, attempt);
      assert attempt.Result() != Done;
    }
  }

  lemma {:induction false} PartsOfParts(p: Program, db: Db, part: Part, inner: Part)
    requires part in Parts(p, db) && inner in Parts(part.program, part.db)
    ensures inner in Parts(p, db)
  {
    if part != Part(p, db) {
      match p
      case Sequence(first, second) =>
        if part in Parts(first, db) {
          PartsOfParts(first, db, part, inner);
        } else {
          PartsOfParts(second, Inside(first, db).0, part, inner);
        }
      case OnError(attempt, handler) =>
        if part in Parts(attempt, db) {
          PartsOfParts(attempt, db, part, inner);
        } else {
          PartsOfParts(handler, Inside(attempt, db).0, part, inner);
        }
      case WithTx(body, _, _) => PartsOfParts(body, db, part, inner);
    }
  }

  predicate Leaf(p: Program) {
    !(p.Sequence? || p.OnError? || p.WithTx?)
  }

  /** The same text with other statements and outcomes at its leaves. */
  predicate SameText(p: Program, q: Program) {
    match (p, q)
    case (Sequence(a, b), Sequence(c, d)) => SameText(a, c) && SameText(b, d)
    case (OnError(a, b), OnError(c, d)) => SameText(a, c) && SameText(b, d)
    case (WithTx(a, begins, ending), WithTx(c, begins', ending')) =>
      SameText(a, c) && begins' == begins && ending' == ending
    case _ => Leaf(p) && Leaf(q)
  }

  /** Every leaf does nothing. */
  function Quiet(p: Program): Program {
    match p
    case Sequence(first, second) => Sequence(Quiet(first), Quiet(second))
    case OnError(attempt, handler) => OnError(Quiet(attempt), Quiet(handler))
    case WithTx(body, begins, ending) => WithTx(Quiet(body), begins, ending)
    case _ => Nothing
  }

  /** The first leaf to run fails. */
  function Failing(p: Program): Program {
    match p
    case Sequence(first, second) => Sequence(Failing(first), Quiet(second))
    case OnError(attempt, handler) => OnError(Failing(attempt), Quiet(handler))
    case WithTx(body, begins, ending) => WithTx(Failing(body), begins, ending)
    case _ => Return(Internal)
  }

  /** A leaf fails inside an attempt whose handler then recovers. */
  function Recovering(p: Program): Program {
    match p
    case Sequence(first, second) =>
      if HandlesNothing(first) then Sequence(Quiet(first), Recovering(second)) else Sequence(Recovering(first),
                                                                                             Quiet(second))
    case OnError(attempt, handler) =>
      OnError(if HandlesNothing(attempt) then Failing(attempt) else Recovering(attempt), Quiet(handler))
    case WithTx(body, begins, ending) => WithTx(Recovering(body), begins, ending)
    case _ => p
  }

  lemma {:induction false} QuietPrograms(p: Program, db: Db)
    ensures SameText(p, Quiet(p)) && Inside(Quiet(p), db) == (db, Done)
  {
    match p
    case Sequence(first, second) => QuietPrograms(first, db); QuietPrograms(second, db);
    case OnError(attempt, handler) => QuietPrograms(attempt, db); QuietPrograms(handler, db);
    case WithTx(body, _, _) => QuietPrograms(body, db);
    case _ =>
  }

  lemma {:induction false} FailingPrograms(p: Program, db: Db)
    requires HandlesNothing(p)
    ensures SameText(p, Failing(p)) && Inside(Failing(p), db) == (db, Failed(Internal))
  {
    match p
    case Sequence(first, second) => FailingPrograms(first, db); QuietPrograms(second, db);
    case WithTx(body, _, _) => FailingPrograms(body, db);
    case _ =>
  }

  lemma {:induction false} RecoveringPrograms(p: Program, db: Db) returns (part: Part)
    requires !HandlesNothing(p)
    ensures SameText(p, Recovering(p)) && Inside(Recovering(p), db) == (db, Done)
    ensures part in Parts(Recovering(p), db) && part.Result() != Done
  {
    match p
    case Sequence(first, second) =>
      if HandlesNothing(first) {
        QuietPrograms(first, db);
        part := RecoveringPrograms(second, db);
      } else {
        part := RecoveringPrograms(first, db);
        QuietPrograms(second, db);
      }
    case OnError(attempt, handler) =>
      QuietPrograms(handler, db);
      if HandlesNothing(attempt) {
        FailingPrograms(attempt, db);
        part := Part(Failing(attempt), db);
      } else {
        part := RecoveringPrograms(attempt, db);
      }
    case WithTx(body, _, _) => part := RecoveringPrograms(body, db);
  }

  /** Whatever its statements do and whatever state it meets, the failure of a part
      keeps the unit of work from succeeding. */
  ghost predicate AlwaysRollsBack(body: Program) {
    forall q, db, part :: SameText(body, q) && part in Parts(q, db) && part.Result() != Done ==>
      Outside(WithTx(q, true, Committed), db) == (db, part.Result())
  }

  lemma {:induction false} TextDecides(p: Program, q: Program)
    requires SameText(p, q)
    ensures HandlesNothing(p) == HandlesNothing(q)
  {
    match p
    case Sequence(first, second) => TextDecides(first, q.first); TextDecides(second, q.second);
    case WithTx(body, _, _) => TextDecides(body, q.body);
    case _ =>
  }

  /** "Any error rolls the whole unit of work back" holds of exactly those texts that
      handle no error inside. */
  lemma ErrorsAlwaysRollBackIffNoneIsHandled(body: Program)
    ensures AlwaysRollsBack(body) <==> HandlesNothing(body)
  {
    hide Parts, HandlesNothing, SameText, Recovering;
    if HandlesNothing(body) {
      forall q, db, part | SameText(body, q) && part in Parts(q, db) && part.Result() != Done
        ensures Outside(WithTx(q, true, Committed), db) == (db, part.Result())
      {
        TextDecides(body, q);
        AnyErrorRollsBack(q, true, Committed, db, part);
      }
    } else {
      var part := RecoveringPrograms(body, EMPTY);
      var q := Recovering(body);
      assert Outside(WithTx(q, true, Committed), EMPTY) == (EMPTY, Done);
    }
  }
}
