/** The account selection of Create: the length test, the bounded sum in 64-bit
    integers, and how both agree with the transaction's own wording. */
module Selection {
  import opened Timestamps
  import opened Domain
  import opened Sums
  import opened Workflow
  import TextOrder

  const MAX_INT64: int := 0x7fff_ffff_ffff_ffff
  const TWO_TO_THE_64: int := 0x1_0000_0000_0000_0000

  predicate Int64(x: int) { -MAX_INT64 - 1 <= x <= MAX_INT64 }

  /** int64 addition. */
  function Plus(x: int, y: int): (z: int)
    requires Int64(x) && Int64(y)
    ensures Int64(z) && (z == x + y || z == x + y - TWO_TO_THE_64 || z == x + y + TWO_TO_THE_64)
  {
    if x + y > MAX_INT64 then x + y - TWO_TO_THE_64
    else if x + y < -MAX_INT64 - 1 then x + y + TWO_TO_THE_64 else x + y
  }

  /** A row of AccountsForCase. */
  datatype Listed = Listed(id: Id, account: Account)

  function IdsOf(rows: seq<Listed>): set<Id> { set i | 0 <= i < |rows| :: rows[i].id }

  predicate DistinctIds(rows: seq<Listed>) {
    forall i, j | 0 <= i < j < |rows| :: rows[i].id != rows[j].id
  }

  predicate DuplicateFree(ids: seq<Id>) { forall i, j | 0 <= i < j < |ids| :: ids[i] != ids[j] }

  function SetOf(ids: seq<Id>): set<Id> { set i | 0 <= i < |ids| :: ids[i] }

  // -------------------------------------------------------------- selection

  /** The rows whose id is wanted, in their order. */
  function Kept(rows: seq<Listed>, wanted: set<Id>): seq<Listed> {
    if rows == [] then []
    else
      var last := rows[|rows| - 1];
      Kept(rows[..|rows| - 1], wanted) + if last.id in wanted then [last] else []
  }

  lemma IdsAppend(rows: seq<Listed>, last: Listed)
    ensures IdsOf(rows + [last]) == IdsOf(rows) + {last.id}
  {
    var all := rows + [last];
    assert all[|rows|] == last && all[..|rows|] == rows;
    forall x ensures x in IdsOf(all) <==> x in IdsOf(rows) || x == last.id {
      if x in IdsOf(rows) {
        var i :| 0 <= i < |rows| && rows[i].id == x;
        assert all[i].id == x;
      }
    }
  }

  lemma {:induction false} KeptIds(rows: seq<Listed>, wanted: set<Id>)
    ensures IdsOf(Kept(rows, wanted)) == IdsOf(rows) * wanted
  {
    if rows != [] {
      var rest, last := rows[..|rows| - 1], rows[|rows| - 1];
      KeptIds(rest, wanted);
      assert rows == rest + [last];
      IdsAppend(rest, last);
      if last.id in wanted {
        IdsAppend(Kept(rest, wanted), last);
      } else {
        assert Kept(rows, wanted) == Kept(rest, wanted);
      }
      hide IdsOf;
      assert (IdsOf(rest) + {last.id}) * wanted == IdsOf(rest) * wanted + if last.id in wanted then {last.id} else {};
    }
  }

  lemma {:induction false} KeptRows(rows: seq<Listed>, wanted: set<Id>)
    ensures forall i | 0 <= i < |Kept(rows, wanted)| :: Kept(rows, wanted)[i] in rows
    ensures DistinctIds(rows) ==> DistinctIds(Kept(rows, wanted))
  {
    if rows != [] {
      var rest, last := rows[..|rows| - 1], rows[|rows| - 1];
      KeptRows(rest, wanted);
      forall i | 0 <= i < |Kept(rest, wanted)| ensures DistinctIds(rows) ==> Kept(rest, wanted)[i].id != last.id {
        var j :| 0 <= j < |rest| && rest[j] == Kept(rest, wanted)[i];
      }
    }
  }

  method SelectAccounts(rows: seq<Listed>, ids: seq<Id>) returns (result: seq<Listed>)
    ensures result == Kept(rows, SetOf(ids))
  {
    var wanted: set<Id> := {};
    for i := 0 to |ids|
      invariant wanted == SetOf(ids[..i])
    {
      wanted := wanted + {ids[i]};
    }
    assert ids[..|ids|] == ids;
    result := [];
    for i := 0 to |rows|
      invariant result == Kept(rows[..i], wanted)
    {
      assert rows[..i + 1][..i] == rows[..i];
      if rows[i].id in wanted {
        result := result + [rows[i]];
      }
    }
    assert rows[..|rows|] == rows;
  }

  lemma {:induction false} DistinctCount(rows: seq<Listed>)
    requires DistinctIds(rows)
    ensures |IdsOf(rows)| == |rows|
  {
    if rows != [] {
      var rest := rows[..|rows| - 1];
      DistinctCount(rest);
      assert IdsOf(rows) == IdsOf(rest) + {rows[|rows| - 1].id};
    }
  }

  lemma {:induction false} SetCount(ids: seq<Id>)
    ensures |SetOf(ids)| <= |ids| && (|SetOf(ids)| == |ids| <==> DuplicateFree(ids))
  {
    if ids != [] {
      var rest, last := ids[..|ids| - 1], ids[|ids| - 1];
      SetCount(rest);
      assert SetOf(ids) == SetOf(rest) + {last};
      if last in SetOf(rest) {
        var i :| 0 <= i < |rest| && rest[i] == last;
        assert ids[i] == ids[|ids| - 1];
      } else {
        forall i | 0 <= i < |rest| ensures ids[i] != last { assert rest[i] in SetOf(rest); }
        if DuplicateFree(rest) {
          forall i, j | 0 <= i < j < |ids| ensures ids[i] != ids[j] { assert ids[i] == rest[i]; if j < |rest| { assert ids[j] == rest[j]; } }
        }
      }
    }
  }

  lemma Intersection(a: set<Id>, b: set<Id>)
    ensures |a * b| <= |b| && (|a * b| == |b| <==> b <= a)
  {
    assert b == (a * b) + (b - a);
    if b <= a {
      assert b - a == {};
    } else {
      var x :| x in b - a;
      assert |b - a| > 0;
    }
  }

  /** The length test accepts exactly the duplicate-free lists of accounts of
      the case. */
  lemma LengthTestIsExact(rows: seq<Listed>, ids: seq<Id>)
    requires DistinctIds(rows)
    ensures |Kept(rows, SetOf(ids))| == |ids| <==> DuplicateFree(ids) && SetOf(ids) <= IdsOf(rows)
  {
    var wanted := SetOf(ids);
    KeptIds(rows, wanted);
    KeptRows(rows, wanted);
    DistinctCount(Kept(rows, wanted));
    SetCount(ids);
    Intersection(IdsOf(rows), wanted);
  }

  // ------------------------------------------------------------ bounded sum

  predicate Balanced(rows: seq<Listed>) {
    forall i | 0 <= i < |rows| :: Int64(rows[i].account.holding.balance)
  }

  predicate AllSmall(rows: seq<Listed>, limit: int) {
    forall i | 0 <= i < |rows| :: rows[i].account.EligibleForSmallClaim(limit)
  }

  function Total(rows: seq<Listed>): int {
    if rows == [] then 0 else rows[0].account.holding.balance + Total(rows[1..])
  }

  /** The loop of Create, with its early exits, from a running total on. */
  function RunningTotal(rows: seq<Listed>, limit: int, total: int): Result<int>
    requires Balanced(rows) && Int64(total)
  {
    if rows == [] then Ok(total)
    else if !rows[0].account.EligibleForSmallClaim(limit) then Err(Conflict)
    else
      var next := Plus(total, rows[0].account.holding.balance);
      if next > limit then Err(Conflict) else RunningTotal(rows[1..], limit, next)
  }

  method BoundedTotal(rows: seq<Listed>, limit: int) returns (r: Result<int>)
    requires Balanced(rows)
    ensures r == RunningTotal(rows, limit, 0)
  {
    var total := 0;
    for i := 0 to |rows|
      invariant Int64(total) && RunningTotal(rows, limit, 0) == RunningTotal(rows[i..], limit, total)
    {
      assert rows[i..][0] == rows[i] && rows[i..][1..] == rows[i + 1..];
      if !rows[i].account.EligibleForSmallClaim(limit) {
        return Err(Conflict);
      }
      total := Plus(total, rows[i].account.holding.balance);
      if total > limit {
        return Err(Conflict);
      }
    }
    return Ok(total);
  }

  lemma {:induction false} TotalNonNegative(rows: seq<Listed>, limit: int)
    requires AllSmall(rows, limit)
    ensures 0 <= Total(rows)
  {
    if rows != [] {
      TotalNonNegative(rows[1..], limit);
    }
  }

  lemma {:induction false} RunningTotalExact(rows: seq<Listed>, limit: int, total: int)
    requires Balanced(rows) && 2 * limit <= MAX_INT64 && (0 < total <= limit || total == 0)
    ensures RunningTotal(rows, limit, total)
            == if AllSmall(rows, limit) && (rows == [] || total + Total(rows) <= limit) then Ok(total + Total(rows)) else Err(Conflict)
  {
    if rows != [] && rows[0].account.EligibleForSmallClaim(limit) {
      var next := Plus(total, rows[0].account.holding.balance);
      assert next == total + rows[0].account.holding.balance;
      var rest := rows[1..];
      assert AllSmall(rows, limit) <==> AllSmall(rest, limit) by {
        if AllSmall(rest, limit) {
          forall i | 0 <= i < |rows| ensures rows[i].account.EligibleForSmallClaim(limit) {
            if i > 0 { assert rows[i] == rest[i - 1]; }
          }
        }
      }
      if next <= limit { RunningTotalExact(rest, limit, next); }
      if AllSmall(rest, limit) { TotalNonNegative(rest, limit); }
    }
  }

  /** For every limit up to (2^63 - 1) / 2 the loop accepts exactly when all
      accounts are eligible and their full sum is within the limit, and the sum
      never wraps. */
  lemma BoundedSumIsExact(rows: seq<Listed>, limit: int)
    requires Balanced(rows) && rows != [] && 2 * limit <= MAX_INT64
    ensures RunningTotal(rows, limit, 0).Ok? <==> AllSmall(rows, limit) && Total(rows) <= limit
    ensures RunningTotal(rows, limit, 0).Ok? ==> RunningTotal(rows, limit, 0) == Ok(Total(rows))
  {
    RunningTotalExact(rows, limit, 0);
  }

  function Deposited(id: Id, balance: int): Listed {
    Listed(id, Account(AccountKey("case", "bank", Sha256(id)), "inquiry", Holding(Deposit, "CNY", balance, false, ""), None, 1))
  }

  /** Two full accounts and three that bring the wrapped sum back to one. */
  function Wrapping(limit: int): seq<Listed> {
    var missing := TWO_TO_THE_64 + 1 - 2 * limit;
    var first := if missing - 2 < limit then missing - 2 else limit;
    var second := if missing - first - 1 < limit then missing - first - 1 else limit;
    [Deposited("a", limit), Deposited("b", limit), Deposited("c", first), Deposited("d", second),
     Deposited("e", missing - first - second)]
  }

  lemma WrappingRows(limit: int)
    requires MAX_INT64 < 2 * limit && limit <= MAX_INT64
    ensures var rows := Wrapping(limit); DistinctIds(rows) && Balanced(rows) && AllSmall(rows, limit)
  {}

  lemma LoopEnd(limit: int)
    ensures RunningTotal([], limit, 1) == Ok(1) && Total([]) == 0
  {}

  lemma LoopStep(rows: seq<Listed>, i: nat, limit: int, total: int)
    requires i < |rows| && Balanced(rows) && Int64(total) && rows[i].account.EligibleForSmallClaim(limit)
    ensures Total(rows[i..]) == rows[i].account.holding.balance + Total(rows[i + 1..])
    ensures var next := Plus(total, rows[i].account.holding.balance);
            next <= limit ==> RunningTotal(rows[i..], limit, total) == RunningTotal(rows[i + 1..], limit, next)
  {}

  /** Above that, five eligible accounts worth 2^64 + 1 are accepted with the
      total 1, whatever the limit: the loop is exact precisely up to it. */
  lemma LargeLimitsWrap(limit: int)
    requires MAX_INT64 < 2 * limit && limit <= MAX_INT64
    ensures var rows := Wrapping(limit);
            && DistinctIds(rows) && Balanced(rows) && AllSmall(rows, limit)
            && RunningTotal(rows, limit, 0) == Ok(1) && Total(rows) == TWO_TO_THE_64 + 1 > limit
  {
    var rows := Wrapping(limit);
    var t := 2 * limit - TWO_TO_THE_64;
    var u := t + rows[2].account.holding.balance;
    WrappingRows(limit);
    hide RunningTotal, Total;
    LoopStep(rows, 4, limit, u + rows[3].account.holding.balance);
    LoopStep(rows, 3, limit, u);
    LoopStep(rows, 2, limit, t);
    LoopStep(rows, 1, limit, limit);
    LoopStep(rows, 0, limit, 0);
    assert rows[0..] == rows && rows[5..] == [];
    LoopEnd(limit);
  }

  /** The loop does what it is for on these rows. */
  ghost predicate ExactOn(rows: seq<Listed>, limit: int)
    requires Balanced(rows)
  {
    RunningTotal(rows, limit, 0) == if AllSmall(rows, limit) && Total(rows) <= limit then Ok(Total(rows)) else Err(Conflict)
  }

  /** Of all 64-bit limits, the loop is exact on every selection precisely for
      those up to (2^63 - 1) / 2. */
  lemma ExactLimits(limit: int)
    requires Int64(limit)
    ensures (forall rows | Balanced(rows) && rows != [] :: ExactOn(rows, limit)) <==> 2 * limit <= MAX_INT64
  {
    if 2 * limit <= MAX_INT64 {
      forall rows | Balanced(rows) && rows != [] ensures ExactOn(rows, limit) { RunningTotalExact(rows, limit, 0); }
    } else {
      hide RunningTotal, Total, Wrapping, AllSmall;
      LargeLimitsWrap(limit);
      assert !ExactOn(Wrapping(limit), limit);
    }
  }

  // ------------------------------------------- agreement with the transaction

  predicate OrderedById(rows: seq<Listed>) {
    forall i, j | 0 <= i < j < |rows| :: TextOrder.Less(rows[i].id, rows[j].id)
  }

  lemma OrderedAreDistinct(rows: seq<Listed>)
    requires OrderedById(rows)
    ensures DistinctIds(rows)
  {
    forall i, j | 0 <= i < j < |rows| ensures rows[i].id != rows[j].id { TextOrder.Irreflexive(rows[i].id); }
  }

  /** AccountsForCase: every account of the case, once, ordered by id. */
  ghost predicate Lists(rows: seq<Listed>, accounts: map<Id, Account>, caseId: Id) {
    && OrderedById(rows) && DistinctIds(rows)
    && (forall i | 0 <= i < |rows| ::
          rows[i].id in accounts && rows[i].account == accounts[rows[i].id] && rows[i].account.key.caseId == caseId)
    && (forall a | a in accounts && accounts[a].key.caseId == caseId :: a in IdsOf(rows))
  }

  lemma {:induction false} TotalIsSum(rows: seq<Listed>, accounts: map<Id, Account>)
    requires DistinctIds(rows) && forall i | 0 <= i < |rows| :: rows[i].id in accounts && rows[i].account == accounts[rows[i].id]
    ensures Total(rows) == Sum(Balances(accounts, IdsOf(rows)))
  {
    hide Sum;
    if rows == [] {
      SumOfNothing(Balances(accounts, IdsOf(rows)));
    } else {
      var rest := rows[1..];
      TotalIsSum(rest, accounts);
      assert IdsOf(rows) == {rows[0].id} + IdsOf(rest);
      SumPut(Balances(accounts, IdsOf(rest)), rows[0].id, rows[0].account.holding.balance);
      assert Balances(accounts, IdsOf(rows)) == Balances(accounts, IdsOf(rest))[rows[0].id := rows[0].account.holding.balance];
    }
  }

  lemma SelectedIds(d: Database, caseId: Id, rows: seq<Listed>, ids: seq<Id>)
    requires Lists(rows, d.accounts, caseId)
    ensures IdsOf(rows) * SetOf(ids) == Selected(d, caseId, ids)
  {}

  /** The rows kept are those of the selected accounts. */
  lemma KeptAreSelected(d: Database, caseId: Id, rows: seq<Listed>, ids: seq<Id>)
    requires Lists(rows, d.accounts, caseId) && Balanced(rows)
    ensures var kept, chosen := Kept(rows, SetOf(ids)), Selected(d, caseId, ids);
            && IdsOf(kept) == chosen && |kept| == |chosen| && Balanced(kept) && DistinctIds(kept)
            && (forall i | 0 <= i < |kept| :: kept[i].id in d.accounts && kept[i].account == d.accounts[kept[i].id])
  {
    hide Kept;
    KeptIds(rows, SetOf(ids));
    KeptRows(rows, SetOf(ids));
    SelectedIds(d, caseId, rows, ids);
    hide Selected, IdsOf, SetOf;
    DistinctCount(Kept(rows, SetOf(ids)));
  }

  lemma EligibleRows(rows: seq<Listed>, accounts: map<Id, Account>, limit: int)
    requires forall i | 0 <= i < |rows| :: rows[i].id in accounts && rows[i].account == accounts[rows[i].id]
    ensures AllSmall(rows, limit) <==> AllEligible(accounts, IdsOf(rows), limit)
  {}

  /** The selection and the loop decide what CreateClaim decides, on the same
      accounts and with the same total. */
  lemma SelectionAgrees(d: Database, caseId: Id, rows: seq<Listed>, ids: seq<Id>, limit: int)
    requires Lists(rows, d.accounts, caseId) && Balanced(rows) && 2 * limit <= MAX_INT64
    ensures var kept, chosen := Kept(rows, SetOf(ids)), Selected(d, caseId, ids);
            && IdsOf(kept) == chosen && |kept| == |chosen| && Balanced(kept)
            && (chosen != {} ==>
                  RunningTotal(kept, limit, 0)
                  == if AllEligible(d.accounts, chosen, limit) && Sum(Balances(d.accounts, chosen)) <= limit
                     then Ok(Sum(Balances(d.accounts, chosen))) else Err(Conflict))
  {
    hide Sum, Kept, Selected, RunningTotal, Lists, AllSmall, AllEligible, Balances, Total;
    var kept, chosen := Kept(rows, SetOf(ids)), Selected(d, caseId, ids);
    KeptAreSelected(d, caseId, rows, ids);
    TotalIsSum(kept, d.accounts);
    EligibleRows(kept, d.accounts, limit);
    if chosen != {} { RunningTotalExact(kept, limit, 0); }
  }
}
