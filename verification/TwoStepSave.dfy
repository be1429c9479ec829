/**
 The save of one order row as the code performs it: the stored version is read and compared, and the row is
 written by an UPDATE that does not ask for the version again. The other modules take the two accesses as one, as
 ADR-005 intends; here they are two, and it is proved exactly when that makes no difference.
 */
module TwoStepSave {
  import opened Domain
  import opened Interleaving

  /** `seen` counts the writes there had been when the version was compared. */
  datatype Attempt = Loaded(snap: OrderRow, op: DomainOp) | Checked(snap: OrderRow, op: DomainOp, seen: nat)

  /** The stored row, the use cases at work on it, and the operations written so far. */
  datatype Cell = Cell(row: OrderRow, attempts: map<FlightId, Attempt>, written: seq<DomainOp>)

  datatype Access = Load(f: FlightId, op: DomainOp) | Check(f: FlightId) | Write(f: FlightId) | Drop(f: FlightId)

  ghost function Act(c: Cell, a: Access): Cell {
    match a
    case Load(f, op) => c.(attempts := c.attempts[f := Loaded(c.row, op)])
    case Check(f) =>
      if f in c.attempts && c.attempts[f].Loaded? then Compare(c, f, c.attempts[f].snap, c.attempts[f].op)
      else c
    case Write(f) =>
      if f in c.attempts && c.attempts[f].Checked? then Put(c, f, c.attempts[f].snap, c.attempts[f].op)
      else c
    case Drop(f) => c.(attempts := c.attempts - {f})
  }

  ghost function Compare(c: Cell, f: FlightId, snap: OrderRow, op: DomainOp): Cell {
    if Perform(op, snap).Ok? && c.row.version == Perform(op, snap).value.version - 1 then
      c.(attempts := c.attempts[f := Checked(snap, op, |c.written|)])
    else
      c.(attempts := c.attempts - {f})
  }

  ghost function Put(c: Cell, f: FlightId, snap: OrderRow, op: DomainOp): Cell {
    match Perform(op, snap)
    case Ok(row) => Cell(row, c.attempts - {f}, c.written + [op])
    case Err(_) => c
  }

  ghost function After(row: OrderRow, accesses: seq<Access>): Cell {
    if accesses == [] then Cell(row, map[], [])
    else Act(After(row, accesses[..|accesses| - 1]), accesses[|accesses| - 1])
  }

  /** No write has come between this write and the comparison before it. */
  ghost predicate Undisturbed(c: Cell, a: Access) {
    a.Write? && a.f in c.attempts && c.attempts[a.f].Checked? ==> c.attempts[a.f].seen == |c.written|
  }

  ghost predicate AllUndisturbed(row: OrderRow, accesses: seq<Access>) {
    forall i :: 0 <= i < |accesses| ==> Undisturbed(After(row, accesses[..i]), accesses[i])
  }

  /** The row is what a serial run of the written operations makes of the first row: none is lost. */
  ghost predicate NothingLost(row: OrderRow, c: Cell) {
    Serial(row, c.written) == Ok(c.row)
  }

  ghost predicate NothingEverLost(row: OrderRow, accesses: seq<Access>) {
    forall i :: 0 <= i <= |accesses| ==> NothingLost(row, After(row, accesses[..i]))
  }

  // ---- What holds as long as no write is disturbed ----

  ghost predicate AttemptOk(first: OrderRow, c: Cell, attempt: Attempt) {
    match attempt
    case Loaded(snap, _) => snap.version <= c.row.version && (snap.version == c.row.version ==> snap == c.row)
    case Checked(snap, op, seen) =>
      && Perform(op, snap).Ok? && seen <= |c.written| && snap.version == first.version + seen
      && (seen == |c.written| ==> snap == c.row)
  }

  ghost predicate CellOk(first: OrderRow, c: Cell) {
    && NothingLost(first, c) && c.row.version == first.version + |c.written|
    && forall f :: f in c.attempts ==> AttemptOk(first, c, c.attempts[f])
  }

  lemma PerformBumps(op: DomainOp, row: OrderRow)
    ensures Perform(op, row).Ok? ==> Perform(op, row).value.version == row.version + 1
  {
  }

  lemma {:induction false} SerialCounts(row: OrderRow, ops: seq<DomainOp>)
    ensures Serial(row, ops).Ok? ==> Serial(row, ops).value.version == row.version + |ops|
  {
    if ops != [] {
      SerialCounts(row, ops[..|ops| - 1]);
      if Serial(row, ops[..|ops| - 1]).Ok? {
        PerformBumps(ops[|ops| - 1], Serial(row, ops[..|ops| - 1]).value);
      }
    }
  }

  lemma SerialOn(row: OrderRow, ops: seq<DomainOp>, op: DomainOp)
    requires Serial(row, ops).Ok?
    ensures Serial(row, ops + [op]) == Perform(op, Serial(row, ops).value)
  {
    assert (ops + [op])[..|ops|] == ops;
  }

  lemma PutKeeps(first: OrderRow, c: Cell, f: FlightId)
    requires CellOk(first, c) && f in c.attempts && c.attempts[f].Checked? && c.attempts[f].seen == |c.written|
    ensures CellOk(first, Put(c, f, c.attempts[f].snap, c.attempts[f].op))
  {
    var op := c.attempts[f].op;
    assert AttemptOk(first, c, c.attempts[f]);
    SerialOn(first, c.written, op);
    PerformBumps(op, c.row);
    var c' := Put(c, f, c.row, op);
    forall g | g in c'.attempts ensures AttemptOk(first, c', c'.attempts[g]) {
      assert AttemptOk(first, c, c.attempts[g]);
    }
  }

  lemma CompareKeeps(first: OrderRow, c: Cell, f: FlightId)
    requires CellOk(first, c) && f in c.attempts && c.attempts[f].Loaded?
    ensures CellOk(first, Compare(c, f, c.attempts[f].snap, c.attempts[f].op))
  {
    assert AttemptOk(first, c, c.attempts[f]);
    PerformBumps(c.attempts[f].op, c.attempts[f].snap);
    var c' := Compare(c, f, c.attempts[f].snap, c.attempts[f].op);
    forall g | g in c'.attempts ensures AttemptOk(first, c', c'.attempts[g]) {
      assert AttemptOk(first, c, c.attempts[g]);
    }
  }

  lemma ActKeeps(first: OrderRow, c: Cell, a: Access)
    requires CellOk(first, c) && Undisturbed(c, a)
    ensures CellOk(first, Act(c, a))
  {
    match a
    case Load(f, op) =>
      var c' := Act(c, a);
      forall g | g in c'.attempts ensures AttemptOk(first, c', c'.attempts[g]) {
        assert g != f ==> AttemptOk(first, c, c.attempts[g]);
      }
    case Check(f) => if f in c.attempts && c.attempts[f].Loaded? { CompareKeeps(first, c, f); }
    case Write(f) => if f in c.attempts && c.attempts[f].Checked? { PutKeeps(first, c, f); }
    case Drop(f) =>
      forall g | g in c.attempts && g != f ensures AttemptOk(first, Act(c, a), c.attempts[g]) {
        assert AttemptOk(first, c, c.attempts[g]);
      }
  }

  /** A disturbed write puts back an older version than the operations written call for. */
  lemma DisturbedWriteLoses(first: OrderRow, c: Cell, a: Access)
    requires CellOk(first, c) && !Undisturbed(c, a)
    ensures !NothingLost(first, Act(c, a))
  {
    var attempt := c.attempts[a.f];
    assert AttemptOk(first, c, attempt);
    PerformBumps(attempt.op, attempt.snap);
    SerialCounts(first, Act(c, a).written);
  }

  // ---- Over any run ----

  lemma Prefixes(accesses: seq<Access>, n: nat, i: nat)
    requires i <= n <= |accesses|
    ensures accesses[..n][..i] == accesses[..i]
  {
  }

  lemma PrefixUndisturbed(row: OrderRow, accesses: seq<Access>, n: nat)
    requires AllUndisturbed(row, accesses) && n <= |accesses|
    ensures AllUndisturbed(row, accesses[..n])
  {
    forall i | 0 <= i < n ensures Undisturbed(After(row, accesses[..n][..i]), accesses[..n][i]) {
      Prefixes(accesses, n, i);
      assert Undisturbed(After(row, accesses[..i]), accesses[i]);
    }
  }

  lemma PrefixNeverLost(row: OrderRow, accesses: seq<Access>, n: nat)
    requires NothingEverLost(row, accesses) && n <= |accesses|
    ensures NothingEverLost(row, accesses[..n])
    ensures NothingLost(row, After(row, accesses[..n]))
  {
    forall i | 0 <= i <= n ensures NothingLost(row, After(row, accesses[..n][..i])) {
      Prefixes(accesses, n, i);
    }
  }

  lemma UndisturbedInPrefix(row: OrderRow, accesses: seq<Access>, n: nat, i: nat)
    requires i < n <= |accesses| && AllUndisturbed(row, accesses[..n])
    ensures Undisturbed(After(row, accesses[..i]), accesses[i])
  {
    Prefixes(accesses, n, i);
    assert Undisturbed(After(row, accesses[..n][..i]), accesses[..n][i]);
  }

  lemma UndisturbedOnce(row: OrderRow, accesses: seq<Access>)
    requires accesses != [] && AllUndisturbed(row, accesses[..|accesses| - 1])
    requires Undisturbed(After(row, accesses[..|accesses| - 1]), accesses[|accesses| - 1])
    ensures AllUndisturbed(row, accesses)
  {
    var n := |accesses| - 1;
    forall i | 0 <= i < n ensures Undisturbed(After(row, accesses[..i]), accesses[i]) {
      UndisturbedInPrefix(row, accesses, n, i);
    }
  }

  lemma {:induction false} UndisturbedLosesNothing(row: OrderRow, accesses: seq<Access>)
    requires AllUndisturbed(row, accesses)
    ensures CellOk(row, After(row, accesses))
  {
    if accesses != [] {
      var n := |accesses| - 1;
      PrefixUndisturbed(row, accesses, n);
      UndisturbedLosesNothing(row, accesses[..n]);
      assert Undisturbed(After(row, accesses[..n]), accesses[n]);
      ActKeeps(row, After(row, accesses[..n]), accesses[n]);
    }
  }

  lemma {:induction false} NothingLostMeansUndisturbed(row: OrderRow, accesses: seq<Access>)
    requires NothingEverLost(row, accesses)
    ensures AllUndisturbed(row, accesses)
  {
    if accesses != [] {
      var n := |accesses| - 1;
      PrefixNeverLost(row, accesses, n);
      NothingLostMeansUndisturbed(row, accesses[..n]);
      UndisturbedLosesNothing(row, accesses[..n]);
      PrefixNeverLost(row, accesses, |accesses|);
      assert accesses[..|accesses|] == accesses;
      if !Undisturbed(After(row, accesses[..n]), accesses[n]) {
        DisturbedWriteLoses(row, After(row, accesses[..n]), accesses[n]);
      }
      UndisturbedOnce(row, accesses);
    }
  }

  /** Any run of accesses to one row: the row is at all times a serial run of the operations written, exactly if no
      write of the row ever falls between a use case's comparison and its own write. */
  lemma {:induction false} LinearizableIff(row: OrderRow, accesses: seq<Access>)
    ensures NothingEverLost(row, accesses) <==> AllUndisturbed(row, accesses)
  {
    if AllUndisturbed(row, accesses) {
      forall i | 0 <= i <= |accesses| ensures NothingLost(row, After(row, accesses[..i])) {
        PrefixUndisturbed(row, accesses, i);
        UndisturbedLosesNothing(row, accesses[..i]);
      }
    }
    if NothingEverLost(row, accesses) {
      NothingLostMeansUndisturbed(row, accesses);
    }
  }

  /** It happens, from any row: two use cases read it, both pass the comparison, and the first write is lost. */
  lemma FirstWriteIsLost(row: OrderRow, a: DomainOp, b: DomainOp) returns (accesses: seq<Access>)
    requires Perform(a, row).Ok? && Perform(b, row).Ok?
    ensures var c := After(row, accesses); c.row == Perform(b, row).value && c.written == [a, b]
    ensures !AllUndisturbed(row, accesses)
  {
    PerformBumps(a, row);
    PerformBumps(b, row);
    var both := BothChecked(row, a, b);
    ActOnce(row, both, Write(0));
    ActOnce(row, both + [Write(0)], Write(1));
    accesses := both + [Write(0)] + [Write(1)];
    var n := |both| + 1;
    assert accesses[..n] == both + [Write(0)] && accesses[n] == Write(1);
    assert !Undisturbed(After(row, accesses[..n]), accesses[n]);
  }

  lemma ActOnce(row: OrderRow, accesses: seq<Access>, a: Access)
    ensures After(row, accesses + [a]) == Act(After(row, accesses), a)
  {
    assert (accesses + [a])[..|accesses|] == accesses;
  }

  lemma BothChecked(row: OrderRow, a: DomainOp, b: DomainOp) returns (accesses: seq<Access>)
    requires Perform(a, row).Ok? && Perform(b, row).Ok?
    ensures After(row, accesses) == Cell(row, map[0 := Checked(row, a, 0), 1 := Checked(row, b, 0)], [])
  {
    PerformBumps(a, row);
    PerformBumps(b, row);
    ActOnce(row, [], Load(0, a));
    ActOnce(row, [] + [Load(0, a)], Load(1, b));
    var loaded := [] + [Load(0, a)] + [Load(1, b)];
    assert After(row, loaded) == Cell(row, map[0 := Loaded(row, a), 1 := Loaded(row, b)], []);
    ActOnce(row, loaded, Check(0));
    assert After(row, loaded + [Check(0)]) == Cell(row, map[0 := Checked(row, a, 0), 1 := Loaded(row, b)], []);
    ActOnce(row, loaded + [Check(0)], Check(1));
    accesses := loaded + [Check(0)] + [Check(1)];
  }
}
