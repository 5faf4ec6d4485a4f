/** Draining due earnings: repeated calls release the sorted list of due earnings block by block. */
module CommissionDue {
  import opened Prelude
  import opened Sorting
  import opened CommissionLedger
  import opened CommissionRuns
  import opened CommissionBooks

  // ----- there is only one list of due earnings -----

  lemma DueListUnique(l: Ledger, now: int, digest: EarningID -> int, a: seq<Earning>, b: seq<Earning>)
    requires IsDigest(digest) && IsDueList(l, now, digest, a) && IsDueList(l, now, digest, b)
    ensures a == b
  {
    forall x | x in a || x in b
      ensures x in a && x in b
    {
    }
    forall x, y | x in a && y in a && DueOrder(digest)(x, y) && DueOrder(digest)(y, x)
      ensures x == y
    {
      assert digest(x.id) == digest(y.id);
    }
    hide DueOrder, IsDigest;
    SortedUnique(a, b, DueOrder(digest));
  }

  // ----- one call -----

  /** Releasing the first of the due earnings leaves exactly the rest due. */
  lemma ReleaseLeavesRest(l: Ledger, now: int, digest: EarningID -> int, due: seq<Earning>, n: nat, l': Ledger)
    requires IsKeyed(l) && IsDueList(l, now, digest, due) && n <= |due|
    requires EarningsMove(l.earnings, IDs(due[..n]), MakeAvailable, l'.earnings)
    ensures IsDueList(l', now, digest, due[n..])
  {
    RestIsApart(l, now, digest, due, n);
    RestIsSorted(due, n, DueOrder(digest));
    RestIsDue(l, now, digest, due, n, l');
    hide DueOrder, IDs, EarningsMove, IsDue, IsKeyed, Distinct, IsSorted;
  }

  lemma RestIsSorted(due: seq<Earning>, n: nat, le: (Earning, Earning) -> bool)
    requires Distinct(due) && IsSorted(due, le) && n <= |due|
    ensures Distinct(due[n..]) && IsSorted(due[n..], le)
  {
  }

  /** No released earning is among the rest. */
  lemma RestIsApart(l: Ledger, now: int, digest: EarningID -> int, due: seq<Earning>, n: nat)
    requires IsDueList(l, now, digest, due) && n <= |due|
    ensures forall e :: e in due[n..] ==> e.id !in IDs(due[..n])
    ensures forall e :: e in due ==> e in due[n..] || e.id in IDs(due[..n])
  {
    hide IsSorted, DueOrder;
    forall i, j | 0 <= i < n <= j < |due|
      ensures due[i].id != due[j].id
    {
      assert due[i] in due && due[j] in due && due[i] != due[j];
    }
    assert forall j :: n <= j < |due| ==> due[n..][j - n] == due[j];
    forall e | e in due[n..]
      ensures e.id !in IDs(due[..n])
    {
      var j :| n <= j < |due| && due[j] == e;
      assert forall f :: f in due[..n] ==> f.id != e.id;
    }
    assert due == due[..n] + due[n..];
  }

  lemma RestIsDue(l: Ledger, now: int, digest: EarningID -> int, due: seq<Earning>, n: nat, l': Ledger)
    requires IsKeyed(l) && IsDueList(l, now, digest, due) && n <= |due|
    requires EarningsMove(l.earnings, IDs(due[..n]), MakeAvailable, l'.earnings)
    requires forall e :: e in due[n..] ==> e.id !in IDs(due[..n])
    requires forall e :: e in due ==> e in due[n..] || e.id in IDs(due[..n])
    ensures forall e :: e in due[n..] ==> IsDue(e, now) && e.id in l'.earnings && l'.earnings[e.id] == e
    ensures forall id :: id in l'.earnings && IsDue(l'.earnings[id], now) ==> l'.earnings[id] in due[n..]
  {
    hide IsSorted, DueOrder, IDs, Distinct;
    assert forall e :: e in due[n..] ==> e in due;
    forall id | id in l'.earnings && IsDue(l'.earnings[id], now)
      ensures l'.earnings[id] in due[n..]
    {
      assert IsRecordOf(l.earnings[id], id);
    }
  }

  // ----- any number of calls -----

  /** How many of `size` due earnings `n` calls release. */
  function Released(n: nat, limit: nat, size: nat): (released: nat)
    ensures released <= size && (limit > 0 && released < size ==> n <= released)
  {
    if n == 0 then 0
    else
      var before := Released(n - 1, limit, size);
      if before + limit <= size then before + limit else size
  }

  lemma {:induction false} ReleasedIs(n: nat, limit: nat, size: nat)
    ensures Released(n, limit, size) == if n * limit <= size then n * limit else size
  {
    if n > 0 {
      ReleasedIs(n - 1, limit, size);
      assert n * limit == (n - 1) * limit + limit;
    }
  }

  /** Successive calls with a fixed clock and limit; `dues` are the lists they find. */
  ghost predicate IsDrain(ledgers: seq<Ledger>, dues: seq<seq<Earning>>, now: int, limit: int, digest: EarningID -> int)
  {
    IsDigest(digest) && |ledgers| == |dues| + 1 &&
    forall i :: 0 <= i < |dues| ==> Steps(ledgers[i], ReleaseDue(now, limit, dues[i]), digest, ledgers[i + 1])
  }

  lemma DrainStep(ledgers: seq<Ledger>, dues: seq<seq<Earning>>, now: int, limit: int, digest: EarningID -> int, n: nat)
    requires IsDrain(ledgers, dues, now, limit, digest) && n < |dues|
    ensures IsDigest(digest) && Steps(ledgers[n], ReleaseDue(now, limit, dues[n]), digest, ledgers[n + 1])
  {
    hide Steps, IsDigest;
  }

  /** Changes of different earnings one after the other are one change of them all. */
  lemma MoveTwice(m: map<EarningID, Earning>, a: set<EarningID>, b: set<EarningID>, action: Action,
          m1: map<EarningID, Earning>, m2: map<EarningID, Earning>)
    requires EarningsMove(m, a, action, m1) && EarningsMove(m1, b, action, m2) && a !! b
    ensures EarningsMove(m, a + b, action, m2)
  {
    hide CanChange, Changed;
  }

  lemma NextBlock(l: Ledger, now: int, limit: int, digest: EarningID -> int, due: seq<Earning>, l': Ledger)
    requires Books(l) && IsDigest(digest) && now != 0 && limit > 0 && IsDueList(l, now, digest, due)
    requires Steps(l, ReleaseDue(now, limit, due), digest, l')
    ensures Books(l') && EarningsMove(l.earnings, IDs(Front(due, limit)), MakeAvailable, l'.earnings)
    ensures IsDueList(l', now, digest, due[|Front(due, limit)|..]) && l'.settlements == l.settlements &&
      l'.events == l.events
  {
    ReleaseMoves(l, now, limit, digest, due, l');
    FrontIsPrefix(due, limit);
    assert IsIndexed(l) && IsKeyed(l);
    hide Books, IsIndexed, Moves, IsDueList, Steps, Front, EarningsMove, IsDigest, IsKeyed;
    MovesApart(l, Front(due, limit), MakeAvailable, l');
    ReleaseLeavesRest(l, now, digest, due, |Front(due, limit)|, l');
  }

  lemma FrontIsPrefix(due: seq<Earning>, limit: int)
    requires limit > 0
    ensures |Front(due, limit)| <= |due| && Front(due, limit) == due[..|Front(due, limit)|]
  {
  }

  /** A call on an indexed ledger always succeeds. */
  lemma ReleaseMoves(l: Ledger, now: int, limit: int, digest: EarningID -> int, due: seq<Earning>, l': Ledger)
    requires Books(l) && IsDigest(digest) && now != 0 && limit > 0 && IsDueList(l, now, digest, due)
    requires Steps(l, ReleaseDue(now, limit, due), digest, l')
    ensures Books(l') && Moves(l, Front(due, limit), MakeAvailable, l')
  {
    var op := ReleaseDue(now, limit, due);
    DueCanChange(l, op, digest);
    hide Books, IsIndexed, Moves, IsDueList, ChangeCollides, Front, IsDigest;
    StepKeepsBooks(l, op, digest, l');
    OthersNeverConflict(l, op, digest);
  }

  /**
   The first `k` of the due earnings have become available, each by one change; the rest is due and nothing else has
   changed.
   */
  ghost predicate IsDrained(first: Ledger, l: Ledger, now: int, digest: EarningID -> int, due: seq<Earning>, k: nat)
    requires k <= |due|
  {
    IsDueList(l, now, digest, due[k..]) && EarningsMove(first.earnings, IDs(due[..k]), MakeAvailable, l.earnings) &&
    l.settlements == first.settlements && l.events == first.events
  }

  /**
   Draining with a fixed clock and limit: call by call the store finds what is left of the first list and releases its
   next `limit` earnings; after `n` calls exactly the first `n * limit` have become available, each by one change, and
   nothing else has changed. Once that is the whole list nothing is due.
   */
  lemma {:induction false} DrainReleasesInOrder(ledgers: seq<Ledger>, dues: seq<seq<Earning>>, now: int, limit: int,
          digest: EarningID -> int, due: seq<Earning>, n: nat)
    requires IsDrain(ledgers, dues, now, limit, digest) && Books(ledgers[0]) && now != 0 && limit > 0
    requires IsDueList(ledgers[0], now, digest, due) && n <= |dues|
    ensures Books(ledgers[n]) && IsDrained(ledgers[0], ledgers[n], now, digest, due, Released(n, limit, |due|))
    ensures n < |dues| ==> dues[n] == due[Released(n, limit, |due|)..]
  {
    hide Books, IsDueList, Steps, IsDigest, IsDrained;
    if n == 0 {
      NothingDrained(ledgers[0], now, digest, due);
    } else {
      DrainReleasesInOrder(ledgers, dues, now, limit, digest, due, n - 1);
      DrainStep(ledgers, dues, now, limit, digest, n - 1);
      hide Released;
      DrainOnce(ledgers[0], ledgers[n - 1], ledgers[n], now, limit, digest, due, n);
    }
    hide Released, IsDrain;
    NextListFound(ledgers, dues, now, limit, digest, due, n);
  }

  lemma NothingDrained(l: Ledger, now: int, digest: EarningID -> int, due: seq<Earning>)
    requires IsDueList(l, now, digest, due)
    ensures IsDrained(l, l, now, digest, due, 0)
  {
    assert due[0..] == due && IDs(due[..0]) == {};
    hide IsDueList;
  }

  /** The `n`-th call, when the calls before it have released their part of the list. */
  lemma DrainOnce(first: Ledger, l: Ledger, l': Ledger, now: int, limit: int, digest: EarningID -> int,
          due: seq<Earning>, n: nat)
    requires IsDigest(digest) && now != 0 && limit > 0 && n > 0 && IsDueList(first, now, digest, due)
    requires var before := Released(n - 1, limit, |due|);
      Books(l) && IsDrained(first, l, now, digest, due, before) &&
        Steps(l, ReleaseDue(now, limit, due[before..]), digest, l')
    ensures Books(l') && IsDrained(first, l', now, digest, due, Released(n, limit, |due|))
  {
    hide *;
    ReleasedNext(n, limit, |due|);
    DrainedRest(first, l, now, digest, due, Released(n - 1, limit, |due|));
    var before, k := Released(n - 1, limit, |due|), Released(n, limit, |due|);
    RestIsApart(first, now, digest, due, before);
    FrontOfRest(due, before, k, limit);
    BlocksJoin(due, before, k);
    NextBlock(l, now, limit, digest, due[before..], l');
    DrainedNext(first, l, l', now, digest, due, before, k);
  }

  lemma ReleasedNext(n: nat, limit: nat, size: nat)
    requires n > 0
    ensures var before := Released(n - 1, limit, size);
      Released(n, limit, size) == if before + limit <= size then before + limit else size
  {
  }

  lemma DrainedRest(first: Ledger, l: Ledger, now: int, digest: EarningID -> int, due: seq<Earning>, k: nat)
    requires k <= |due| && IsDrained(first, l, now, digest, due, k)
    ensures IsDueList(l, now, digest, due[k..])
  {
    hide IsDueList;
  }

  lemma DrainedNext(first: Ledger, l: Ledger, l': Ledger, now: int, digest: EarningID -> int, due: seq<Earning>,
          a: nat, b: nat)
    requires a <= b <= |due| && IsDrained(first, l, now, digest, due, a) && IsDueList(l', now, digest, due[b..])
    requires EarningsMove(l.earnings, IDs(due[a..b]), MakeAvailable, l'.earnings) &&
      l'.settlements == l.settlements && l'.events == l.events
    requires IDs(due[..a]) + IDs(due[a..b]) == IDs(due[..b]) && IDs(due[..a]) !! IDs(due[a..b])
    ensures IsDrained(first, l', now, digest, due, b)
  {
    hide IsDueList, EarningsMove, IDs;
    MoveTwice(first.earnings, IDs(due[..a]), IDs(due[a..b]), MakeAvailable, l.earnings, l'.earnings);
  }

  lemma FrontOfRest(due: seq<Earning>, a: nat, b: nat, limit: int)
    requires a <= |due| && limit > 0 && b == if a + limit <= |due| then a + limit else |due|
    ensures Front(due[a..], limit) == due[a..b] && |Front(due[a..], limit)| == b - a && due[a..][b - a..] == due[b..]
  {
  }

  lemma BlocksJoin(due: seq<Earning>, a: nat, b: nat)
    requires a <= b <= |due| && forall e :: e in due[a..] ==> e.id !in IDs(due[..a])
    ensures IDs(due[..a]) + IDs(due[a..b]) == IDs(due[..b]) && IDs(due[..a]) !! IDs(due[a..b])
  {
    assert due[..b] == due[..a] + due[a..b];
    assert forall e :: e in due[a..b] ==> e in due[a..] by {
      assert due[a..] == due[a..b] + due[b..];
    }
  }

  lemma NextListFound(ledgers: seq<Ledger>, dues: seq<seq<Earning>>, now: int, limit: nat, digest: EarningID -> int,
          due: seq<Earning>, n: nat)
    requires IsDrain(ledgers, dues, now, limit, digest) && n <= |dues|
    requires IsDrained(ledgers[0], ledgers[n], now, digest, due, Released(n, limit, |due|))
    ensures n < |dues| ==> dues[n] == due[Released(n, limit, |due|)..]
  {
    hide IsDueList, Released, EarningsMove;
    if n < |dues| {
      DrainStep(ledgers, dues, now, limit, digest, n);
      DueListUnique(ledgers[n], now, digest, dues[n], due[Released(n, limit, |due|)..]);
    }
  }
}
