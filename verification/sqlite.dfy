/** The connection and the closures that run on it, as far as interrupts can tell them apart.

    `sqlite3_interrupt` raises a flag.  A statement that starts while no statement is running
    lowers the flag; a running statement that sees it raised fails with SQLITE_INTERRUPT. */
module Sqlite {
  import opened Errors

  /** The contents of the database, and a closure's local variables and control point. */
  type Db(!new)
  type Local(!new)

  /** Who called `sqlite3_interrupt`: some job's token, or `shutdown_now`. */
  datatype Source = ByToken(job: nat) | ByDriver

  /** `pending` is SQLite's interrupt flag, kept as the set of those who raised it: the flag is up
      exactly when the set is not empty. */
  datatype Conn = Conn(open: bool, db: Db, active: nat, pending: set<Source>) {
    function Interrupt(source: Source): Conn {
      if open then this.(pending := pending + {source}) else this
    }

    function Begin(): Conn {
      this.(active := active + 1, pending := if active == 0 then {} else pending)
    }

    function End(): Conn {
      this.(active := if active == 0 then 0 else active - 1)
    }
  }

  datatype Outcome = Fine(v: Value) | Error(e: DbError) | Panic

  /** What a closure does next.  `Step` advances a running statement: `run` is what it does to the
      database, `cut` is where the closure resumes if the statement fails with SQLITE_INTERRUPT. */
  datatype Action =
    | Finish(o: Outcome)
    | Begin(next: Local)
    | Step(run: Db -> (Db, Local), cut: Local)
    | End(next: Local)

  /** A closure is a state machine.  `open` counts the statements it holds and `seen` tells whether
      one of them has failed with SQLITE_INTERRUPT. */
  datatype Closure = Closure(start: Local, act: Local -> Action, open: Local -> nat, seen: Local -> bool)

  /** The closures in scope: they finish holding no statement (statements borrow the connection) and
      report SQLITE_INTERRUPT only after meeting it. */
  ghost predicate Honest(cl: Closure) {
    && cl.open(cl.start) == 0
    && !cl.seen(cl.start)
    && forall l :: HonestAt(cl, l)
  }

  ghost predicate HonestAt(cl: Closure, l: Local) {
    match cl.act(l)
    case Finish(o) => cl.open(l) == 0 && (o == Error(Interrupted) ==> cl.seen(l))
    case Begin(m) => cl.open(m) == cl.open(l) + 1 && cl.seen(m) == cl.seen(l)
    case End(m) => cl.open(m) + 1 == cl.open(l) && cl.seen(m) == cl.seen(l)
    case Step(run, cut) =>
      && cl.open(cut) + 1 == cl.open(l)
      && forall d :: cl.open(run(d).1) == cl.open(l) && cl.seen(run(d).1) == cl.seen(l)
  }

  /** The closure running alone, with nobody interrupting it: local state and database after `n` actions. */
  function Solo(cl: Closure, db: Db, n: nat): (Local, Db) {
    if n == 0 then (cl.start, db)
    else
      var (l, d) := Solo(cl, db, n - 1);
      match cl.act(l)
      case Finish(_) => (l, d)
      case Begin(m) => (m, d)
      case End(m) => (m, d)
      case Step(run, _) => (run(d).1, run(d).0)
  }

  ghost predicate FinishesAt(cl: Closure, db: Db, n: nat, after: Db, o: Outcome) {
    var (l, d) := Solo(cl, db, n);
    d == after && cl.act(l) == Finish(o)
  }

  /** Running alone on `db`, the closure ends with outcome `o` and leaves `after`. */
  ghost predicate Alone(cl: Closure, db: Db, after: Db, o: Outcome) {
    exists n: nat :: FinishesAt(cl, db, n, after, o)
  }

  /** The closure running alone, where action `k`, if it is a step of a statement and `cuts[k]` is set, fails with
      SQLITE_INTERRUPT. */
  function Under(cl: Closure, db: Db, cuts: seq<bool>): (Local, Db) {
    if cuts == [] then (cl.start, db)
    else
      var (l, d) := Under(cl, db, cuts[..|cuts| - 1]);
      match cl.act(l)
      case Finish(_) => (l, d)
      case Begin(m) => (m, d)
      case End(m) => (m, d)
      case Step(run, m) => if cuts[|cuts| - 1] then (m, d) else (run(d).1, run(d).0)
  }

  ghost predicate FinishesUnder(cl: Closure, db: Db, cuts: seq<bool>, after: Db, o: Outcome) {
    var (l, d) := Under(cl, db, cuts);
    d == after && cl.act(l) == Finish(o)
  }

  /** With nothing cut, that is the closure running alone. */
  lemma {:induction false} UnderNoCuts(cl: Closure, db: Db, cuts: seq<bool>)
    requires true !in cuts
    ensures Under(cl, db, cuts) == Solo(cl, db, |cuts|)
  {
    if cuts != [] {
      UnderNoCuts(cl, db, cuts[..|cuts| - 1]);
    }
  }

  lemma {:induction false} StaysFinished(cl: Closure, db: Db, n: nat, m: nat)
    requires n <= m
    requires cl.act(Solo(cl, db, n).0).Finish?
    ensures Solo(cl, db, m) == Solo(cl, db, n)
    decreases m
  {
    if n < m {
      StaysFinished(cl, db, n, m - 1);
    }
  }

  /** A closure running alone is a function of the database: it has at most one result. */
  lemma AloneIsAFunction(cl: Closure, db: Db, a1: Db, o1: Outcome, a2: Db, o2: Outcome)
    requires Alone(cl, db, a1, o1) && Alone(cl, db, a2, o2)
    ensures a1 == a2 && o1 == o2
  {
    var n: nat :| FinishesAt(cl, db, n, a1, o1);
    var m: nat :| FinishesAt(cl, db, m, a2, o2);
    if n <= m {
      StaysFinished(cl, db, n, m);
    } else {
      StaysFinished(cl, db, m, n);
    }
  }
}
