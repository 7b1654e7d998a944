/** The generation-fenced recovery lock. */
module RecoveryLock {
  // A missing row means trading is locked.

  import opened Common
  import opened Orders

  datatype LockStatus = Locked | Reconciling | Ready

  datatype LockRow = LockRow(status: LockStatus, codes: seq<string>, updatedAt: int, generation: nat)

  datatype LockError = InvalidGeneration | Stale | LockActive(codes: seq<string>)

  type Locks = map<Account, LockRow>

  const REQUIRED := "reconciliation_required"
  const IN_PROGRESS := "reconciliation_in_progress"

  /** The codes without repetitions, in order of first occurrence. */
  function Unique(codes: seq<string>): (unique: seq<string>)
    ensures forall code :: code in unique <==> code in codes
    ensures forall i, j :: 0 <= i < j < |unique| ==> unique[i] != unique[j]
  {
    if codes == [] then []
    else
      var front := Unique(codes[..|codes| - 1]);
      var last := codes[|codes| - 1];
      assert codes == codes[..|codes| - 1] + [last];
      if last in front then front else front + [last]
  }

  /** A code stands where it first occurred: what the codes before it make is what stands before it. */
  lemma {:induction false} UniqueKeepsOrder(codes: seq<string>, n: nat)
    requires n <= |codes|
    ensures Unique(codes[..n]) <= Unique(codes)
  {
    if n == |codes| {
      assert codes[..n] == codes;
    } else {
      var front := codes[..|codes| - 1];
      UniqueKeepsOrder(front, n);
      assert front[..n] == codes[..n];
    }
  }

  function NextGeneration(rows: Locks, account: Account): nat {
    if account in rows then rows[account].generation + 1 else 1
  }

  function Begin(rows: Locks, account: Account, now: int): Locks {
    rows[account := LockRow(Reconciling, [IN_PROGRESS], now, NextGeneration(rows, account))]
  }

  function ForcedCodes(codes: seq<string>): seq<string> {
    if Unique(codes) == [] then [REQUIRED] else Unique(codes)
  }

  function ForceLock(rows: Locks, account: Account, codes: seq<string>, now: int): Locks {
    rows[account := LockRow(Locked, ForcedCodes(codes), now, NextGeneration(rows, account))]
  }

  predicate Current(rows: Locks, account: Account, generation: nat) {
    account in rows && rows[account].generation == generation
  }

  function Complete(rows: Locks, account: Account, codes: seq<string>, generation: nat, now: int): Locks {
    if Current(rows, account, generation)
    then rows[account := LockRow(if codes == [] then Ready else Locked, Unique(codes), now, generation)]
    else rows
  }

  /** Reading the state of an account inserts its locked row. */
  function Opened(rows: Locks, account: Account, now: int): Locks {
    if account in rows then rows else rows[account := LockRow(Locked, [REQUIRED], now, 0)]
  }

  predicate IsReady(rows: Locks, account: Account) {
    account in rows && rows[account].status == Ready
  }

  /** The persistent startup gate. */
  class Repository {
    var rows: Locks

    constructor ()
      ensures rows == map[]
    {
      rows := map[];
    }

    method State(account: Account, now: int) returns (r: LockRow)
      modifies this
      ensures rows == Opened(old(rows), account, now) && account in rows && r == rows[account]
    {
      if account !in rows {
        rows := rows[account := LockRow(Locked, [REQUIRED], now, 0)];
      }
      r := rows[account];
    }

    method BeginAttempt(account: Account, now: int) returns (r: LockRow)
      modifies this
      ensures rows == Begin(old(rows), account, now) && r == rows[account]
    {
      var generation := 1;
      if account in rows {
        generation := rows[account].generation + 1;
      }
      r := LockRow(Reconciling, [IN_PROGRESS], now, generation);
      rows := rows[account := r];
    }

    method Force(account: Account, codes: seq<string>, now: int) returns (r: LockRow)
      modifies this
      ensures rows == ForceLock(old(rows), account, codes, now) && r == rows[account]
    {
      var unique := Unique(codes);
      if unique == [] {
        unique := [REQUIRED];
      }
      var generation := 1;
      if account in rows {
        generation := rows[account].generation + 1;
      }
      r := LockRow(Locked, unique, now, generation);
      rows := rows[account := r];
    }

    /** Only the attempt that owns the current generation may change the lock. */
    method CompleteAttempt(account: Account, codes: seq<string>, expected: int, now: int)
      returns (r: Result<LockRow, LockError>)
      modifies this
      ensures expected < 1 ==> r == Err(InvalidGeneration) && rows == old(rows)
      ensures expected >= 1 && !Current(old(rows), account, expected) ==> r == Err(Stale) && rows == old(rows)
      ensures expected >= 1 && Current(old(rows), account, expected) ==>
        && rows == Complete(old(rows), account, codes, expected, now)
        && account in rows && r == Ok(rows[account])
      ensures r.Ok? ==> (r.value.status == Ready <==> codes == [])
    {
      if expected < 1 {
        return Err(InvalidGeneration);
      }
      var status := if codes == [] then Ready else Locked;
      if account !in rows || rows[account].generation != expected {
        return Err(Stale);
      }
      rows := rows[account := LockRow(status, Unique(codes), now, expected)];
      return Ok(rows[account]);
    }

    method AssertReady(account: Account, now: int) returns (r: Option<LockError>)
      modifies this
      ensures rows == Opened(old(rows), account, now)
      ensures r.None? <==> IsReady(old(rows), account)
    {
      var current := State(account, now);
      if current.status != Ready {
        return Some(LockActive(current.codes));
      }
      return None;
    }
  }
}
