/** The order of rows in the tokens table: ICP first, then tokens with a
    balance or imported, then tokens with a balance, then the important ck
    tokens, then by title ignoring case. */
module TokensTable {
  import opened Seqs
  import opened Comparators

  /** A token's balance: an amount in its smallest units, or something that
      is not an amount (still loading, unavailable). */
  datatype Balance = TokenAmountV2(ulps: nat) | NotAnAmount

  datatype UserToken = UserToken(universeId: string, title: string, balance: Balance)

  /** The canister ids the ordering singles out, as text: the dapp's own
      canister (the ICP universe) and the ckBTC, ckETH and ckUSDC universes. */
  datatype TokenIds = TokenIds(ownCanisterId: string, ckBtc: string, ckEth: string, ckUsdc: string)

  predicate CkIdsDistinct(ids: TokenIds) {
    ids.ckBtc != ids.ckEth && ids.ckBtc != ids.ckUsdc && ids.ckEth != ids.ckUsdc
  }

  function GetTokenBalanceOrZero(t: UserToken): (r: nat)
    ensures t.balance.TokenAmountV2? ==> r == t.balance.ulps
    ensures t.balance.NotAnAmount? ==> r == 0
  {
    match t.balance
    case TokenAmountV2(ulps) => ulps
    case NotAnAmount => 0
  }

  predicate IsIcp(ids: TokenIds, t: UserToken) {
    t.universeId == ids.ownCanisterId
  }

  predicate HasBalance(t: UserToken) {
    GetTokenBalanceOrZero(t) > 0
  }

  predicate HasBalanceOrImported(importedTokenIds: set<string>, t: UserToken) {
    HasBalance(t) || t.universeId in importedTokenIds
  }

  /** Only an amount can make a balance positive. */
  lemma HasBalanceIffPositiveAmount(t: UserToken)
    ensures HasBalance(t) <==> t.balance.TokenAmountV2? && t.balance.ulps > 0
  {
  }

  // ---------------------------------------------------------------------------
  // The five comparators
  // ---------------------------------------------------------------------------

  function CompareTokensIcpFirst(ids: TokenIds, a: UserToken, b: UserToken): (r: int)
    ensures r < 0 <==> IsIcp(ids, a) && !IsIcp(ids, b)
    ensures r > 0 <==> !IsIcp(ids, a) && IsIcp(ids, b)
  {
    Descending(BoolLess, IsIcp(ids, a), IsIcp(ids, b))
  }

  function CompareTokensWithBalanceFirst(a: UserToken, b: UserToken): (r: int)
    ensures r < 0 <==> HasBalance(a) && !HasBalance(b)
    ensures r > 0 <==> !HasBalance(a) && HasBalance(b)
  {
    Descending(BoolLess, HasBalance(a), HasBalance(b))
  }

  function CompareTokensWithBalanceOrImportedFirst(importedTokenIds: set<string>, a: UserToken, b: UserToken): (r: int)
    ensures r < 0 <==> HasBalanceOrImported(importedTokenIds, a) && !HasBalanceOrImported(importedTokenIds, b)
    ensures r > 0 <==> !HasBalanceOrImported(importedTokenIds, a) && HasBalanceOrImported(importedTokenIds, b)
  {
    Descending(BoolLess, HasBalanceOrImported(importedTokenIds, a), HasBalanceOrImported(importedTokenIds, b))
  }

  /** The ck token ids in reverse order of importance, so that the position
      of an id is its rank and an absent id gets -1. */
  function ImportantCkTokenIds(ids: TokenIds): seq<string> {
    Reverse([ids.ckBtc, ids.ckEth, ids.ckUsdc])
  }

  function ImportanceRank(ids: TokenIds, importedTokenIds: set<string>, t: UserToken): (r: int)
    ensures -1 <= r <= 2
  {
    var ckKnownIndex := IndexOf(ImportantCkTokenIds(ids), t.universeId);
    if ckKnownIndex >= 0 then ckKnownIndex
    else if t.universeId in importedTokenIds then 0
    else -1
  }

  function CompareTokensByImportance(ids: TokenIds, importedTokenIds: set<string>, a: UserToken, b: UserToken): (r: int)
    ensures r < 0 <==> ImportanceRank(ids, importedTokenIds, a) > ImportanceRank(ids, importedTokenIds, b)
    ensures r > 0 <==> ImportanceRank(ids, importedTokenIds, a) < ImportanceRank(ids, importedTokenIds, b)
  {
    Descending(IntLess, ImportanceRank(ids, importedTokenIds, a), ImportanceRank(ids, importedTokenIds, b))
  }

  /** `toLowerCase` on the ASCII letters. */
  function LowerChar(c: char): (r: char)
    ensures 'A' <= c <= 'Z' ==> 'a' <= r <= 'z' && r as int == c as int + 32
    ensures !('A' <= c <= 'Z') ==> r == c
  {
    if 'A' <= c <= 'Z' then (c as int + 32) as char else c
  }

  function ToLower(s: string): (r: string)
    ensures |r| == |s|
    ensures forall i :: 0 <= i < |s| ==> r[i] == LowerChar(s[i])
  {
    seq(|s|, i requires 0 <= i < |s| => LowerChar(s[i]))
  }

  predicate SameIgnoringCase(x: string, y: string) {
    ToLower(x) == ToLower(y)
  }

  function CompareTokensAlphabetically(a: UserToken, b: UserToken): (r: int)
    ensures r < 0 <==> StringLess(ToLower(a.title), ToLower(b.title))
    ensures r > 0 <==> StringLess(ToLower(b.title), ToLower(a.title))
  {
    StringLessAsymmetric(ToLower(a.title), ToLower(b.title));
    Ascending(StringLess, ToLower(a.title), ToLower(b.title))
  }

  /** The five comparators, in the order the table consults them. */
  function TableComparators(ids: TokenIds, importedTokenIds: set<string>): seq<(UserToken, UserToken) -> int> {
    [ (a: UserToken, b: UserToken) => CompareTokensIcpFirst(ids, a, b),
      (a: UserToken, b: UserToken) => CompareTokensWithBalanceOrImportedFirst(importedTokenIds, a, b),
      (a: UserToken, b: UserToken) => CompareTokensWithBalanceFirst(a, b),
      (a: UserToken, b: UserToken) => CompareTokensByImportance(ids, importedTokenIds, a, b),
      (a: UserToken, b: UserToken) => CompareTokensAlphabetically(a, b) ]
  }

  function CompareTokensForTokensTable(ids: TokenIds, importedTokenIds: set<string>): (UserToken, UserToken) -> int {
    MergeComparators(TableComparators(ids, importedTokenIds))
  }

  // ---------------------------------------------------------------------------
  // Properties of the individual comparators
  // ---------------------------------------------------------------------------

  /** Importance ranks ckBTC above ckETH above ckUSDC; an imported token that
      is none of them ties with ckUSDC; every other token ranks last. */
  lemma ImportanceRanks(ids: TokenIds, importedTokenIds: set<string>, t: UserToken)
    requires CkIdsDistinct(ids)
    ensures t.universeId == ids.ckBtc ==> ImportanceRank(ids, importedTokenIds, t) == 2
    ensures t.universeId == ids.ckEth ==> ImportanceRank(ids, importedTokenIds, t) == 1
    ensures t.universeId == ids.ckUsdc ==> ImportanceRank(ids, importedTokenIds, t) == 0
    ensures t.universeId !in {ids.ckBtc, ids.ckEth, ids.ckUsdc} ==>
              ImportanceRank(ids, importedTokenIds, t) == (if t.universeId in importedTokenIds then 0 else -1)
  {
    var important := ImportantCkTokenIds(ids);
    assert important == [ids.ckUsdc, ids.ckEth, ids.ckBtc];
    var i := IndexOf(important, t.universeId);
    if t.universeId == ids.ckBtc {
      assert important[2] == t.universeId;
    } else if t.universeId == ids.ckEth {
      assert important[1] == t.universeId;
    }
  }

  /** Titles that differ only in letter case compare equal, and only those. */
  lemma AlphabeticalTiesIffSameIgnoringCase(a: UserToken, b: UserToken)
    ensures CompareTokensAlphabetically(a, b) == 0 <==> SameIgnoringCase(a.title, b.title)
  {
    if !SameIgnoringCase(a.title, b.title) {
      StringLessTotal(ToLower(a.title), ToLower(b.title));
    } else {
      StringLessIrreflexive(ToLower(a.title));
    }
  }

  // ---------------------------------------------------------------------------
  // Properties of the table order
  // ---------------------------------------------------------------------------

  /** The table consults the comparators in order: a later comparator
      decides only when every earlier one ties, and two tokens tie in the
      table exactly when all five tie. */
  lemma TableConsultsInOrder(ids: TokenIds, importedTokenIds: set<string>, a: UserToken, b: UserToken)
    ensures var r := CompareTokensForTokensTable(ids, importedTokenIds)(a, b);
            var c1 := CompareTokensIcpFirst(ids, a, b);
            var c2 := CompareTokensWithBalanceOrImportedFirst(importedTokenIds, a, b);
            var c3 := CompareTokensWithBalanceFirst(a, b);
            var c4 := CompareTokensByImportance(ids, importedTokenIds, a, b);
            var c5 := CompareTokensAlphabetically(a, b);
            && (c1 != 0 ==> r == c1)
            && (c1 == 0 && c2 != 0 ==> r == c2)
            && (c1 == 0 && c2 == 0 && c3 != 0 ==> r == c3)
            && (c1 == 0 && c2 == 0 && c3 == 0 && c4 != 0 ==> r == c4)
            && (c1 == 0 && c2 == 0 && c3 == 0 && c4 == 0 ==> r == c5)
  {
    var cs := TableComparators(ids, importedTokenIds);
    MergeFirstNonZero(cs, a, b, 0);
    if cs[0](a, b) == 0 {
      MergeFirstNonZero(cs, a, b, 1);
      if cs[1](a, b) == 0 {
        MergeFirstNonZero(cs, a, b, 2);
        if cs[2](a, b) == 0 {
          MergeFirstNonZero(cs, a, b, 3);
          if cs[3](a, b) == 0 {
            MergeFirstNonZero(cs, a, b, 4);
            if cs[4](a, b) == 0 {
              MergeFirstNonZero(cs, a, b, 5);
            }
          }
        }
      }
    }
  }

  /** ICP comes before every other token. */
  lemma IcpSortsFirst(ids: TokenIds, importedTokenIds: set<string>, a: UserToken, b: UserToken)
    requires IsIcp(ids, a) && !IsIcp(ids, b)
    ensures CompareTokensForTokensTable(ids, importedTokenIds)(a, b) < 0
    ensures CompareTokensForTokensTable(ids, importedTokenIds)(b, a) > 0
  {
    TableConsultsInOrder(ids, importedTokenIds, a, b);
    TableConsultsInOrder(ids, importedTokenIds, b, a);
  }

  /** Among tokens on the same side of the ICP split, a token with a balance
      or imported comes before one with neither. */
  lemma BalanceOrImportedSortsFirst(ids: TokenIds, importedTokenIds: set<string>, a: UserToken, b: UserToken)
    requires IsIcp(ids, a) == IsIcp(ids, b)
    requires HasBalanceOrImported(importedTokenIds, a) && !HasBalanceOrImported(importedTokenIds, b)
    ensures CompareTokensForTokensTable(ids, importedTokenIds)(a, b) < 0
  {
    TableConsultsInOrder(ids, importedTokenIds, a, b);
  }

  /** Among tokens on the same side of the ICP split, a token with a positive
      balance comes before one without, whether or not that one is imported. */
  lemma BalanceSortsFirst(ids: TokenIds, importedTokenIds: set<string>, a: UserToken, b: UserToken)
    requires IsIcp(ids, a) == IsIcp(ids, b)
    requires HasBalance(a) && !HasBalance(b)
    ensures CompareTokensForTokensTable(ids, importedTokenIds)(a, b) < 0
  {
    TableConsultsInOrder(ids, importedTokenIds, a, b);
  }

  /** Each of the five comparators is consistent. */
  lemma ComparatorConsistent(ids: TokenIds, importedTokenIds: set<string>, i: nat)
    requires i < 5
    ensures Consistent(TableComparators(ids, importedTokenIds)[i])
  {
    var cs := TableComparators(ids, importedTokenIds);
    if i == 0 {
      BoolLessIsStrictTotalOrder();
      DescendingKeyComparatorConsistent(cs[0], (t: UserToken) => IsIcp(ids, t), BoolLess);
    } else if i == 1 {
      BoolLessIsStrictTotalOrder();
      DescendingKeyComparatorConsistent(cs[1], (t: UserToken) => HasBalanceOrImported(importedTokenIds, t), BoolLess);
    } else if i == 2 {
      BoolLessIsStrictTotalOrder();
      DescendingKeyComparatorConsistent(cs[2], (t: UserToken) => HasBalance(t), BoolLess);
    } else if i == 3 {
      IntLessIsStrictTotalOrder();
      DescendingKeyComparatorConsistent(cs[3], (t: UserToken) => ImportanceRank(ids, importedTokenIds, t), IntLess);
    } else {
      StringLessIsStrictTotalOrder();
      KeyComparatorConsistent(cs[4], (t: UserToken) => ToLower(t.title), StringLess);
    }
  }

  /** The table comparator is consistent, as a sort needs: every token ties
      with itself, swapping two tokens flips the answer, and the order is
      transitive. */
  lemma TableComparatorConsistent(ids: TokenIds, importedTokenIds: set<string>)
    ensures Consistent(CompareTokensForTokensTable(ids, importedTokenIds))
  {
    var cs := TableComparators(ids, importedTokenIds);
    forall i | 0 <= i < |cs|
      ensures Consistent(cs[i])
    {
      ComparatorConsistent(ids, importedTokenIds, i);
    }
    MergeConsistent(cs);
  }
}
