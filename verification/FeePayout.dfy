// Which coordinator accounts receive fees, what is accumulated for them, and what they are paid.
module FeePayout {
  import opened Types
  import opened Accounts
  import opened Txs
  import opened Ledgers
  import opened LedgerInvariants
  import opened Batches

  ghost predicate AllIn(led: Ledger, idxs: seq<Idx>) {
    forall k :: 0 <= k < |idxs| ==> idxs[k] in led.accounts
  }

  // No earlier coordinator account has the same token.
  ghost predicate FirstOfToken(led: Ledger, coords: seq<Idx>, k: nat)
    requires k < |coords| && AllIn(led, coords)
  {
    forall j :: 0 <= j < k ==> led.accounts[coords[j]].tokenID != led.accounts[coords[k]].tokenID
  }

  ghost function FirstPerToken(led: Ledger, coords: seq<Idx>, n: nat): seq<Idx>
    requires n <= |coords| && AllIn(led, coords)
  {
    if n == 0 then []
    else FirstPerToken(led, coords, n - 1) + if FirstOfToken(led, coords, n - 1) then [coords[n - 1]] else []
  }

  ghost predicate DistinctTokens(led: Ledger, idxs: seq<Idx>)
    requires AllIn(led, idxs)
  {
    forall j, k :: 0 <= j < k < |idxs| ==> led.accounts[idxs[j]].tokenID != led.accounts[idxs[k]].tokenID
  }

  lemma {:induction false} FirstPerTokenOfPrefix(led: Ledger, coords: seq<Idx>, n: nat, m: nat)
    requires n <= m <= |coords| && AllIn(led, coords) && AllIn(led, coords[..m])
    ensures FirstPerToken(led, coords, n) == FirstPerToken(led, coords[..m], n)
  {
    if n > 0 {
      FirstPerTokenOfPrefix(led, coords, n - 1, m);
      assert FirstOfToken(led, coords, n - 1) <==> FirstOfToken(led, coords[..m], n - 1);
    }
  }

  ghost function Tokens(led: Ledger, idxs: seq<Idx>): set<TokenID>
    requires AllIn(led, idxs)
  {
    if idxs == [] then {}
    else
      var last := |idxs| - 1;
      Tokens(led, idxs[..last]) + {led.accounts[idxs[last]].tokenID}
  }

  lemma {:induction false} TokensAre(led: Ledger, idxs: seq<Idx>)
    requires AllIn(led, idxs)
    ensures forall k :: 0 <= k < |idxs| ==> led.accounts[idxs[k]].tokenID in Tokens(led, idxs)
    ensures forall t :: t in Tokens(led, idxs) ==> exists k :: 0 <= k < |idxs| && led.accounts[idxs[k]].tokenID == t
  {
    if idxs != [] {
      var last := |idxs| - 1;
      TokensAre(led, idxs[..last]);
      forall t | t in Tokens(led, idxs)
        ensures exists k :: 0 <= k < |idxs| && led.accounts[idxs[k]].tokenID == t
      {
        if t in Tokens(led, idxs[..last]) {
          var k :| 0 <= k < last && led.accounts[idxs[..last][k]].tokenID == t;
          assert idxs[k] == idxs[..last][k];
        }
      }
    }
  }

  // Filtering keeps, of each token, the first account given; it fails exactly when an account is missing.
  lemma {:induction false} FilterKeepsFirsts(led: Ledger, coords: seq<Idx>)
    requires AccountsUpTo(led, led.currentIdx)
    ensures FilterCoords(led, coords).Ok? <==> AllIn(led, coords)
    ensures FilterCoords(led, coords).Ok? ==>
      var (used, kept) := FilterCoords(led, coords).value;
      && kept == FirstPerToken(led, coords, |coords|)
      && AllIn(led, kept) && DistinctTokens(led, kept)
      && used == Tokens(led, coords) == Tokens(led, kept)
  {
    if coords != [] {
      var last := |coords| - 1;
      var prev := coords[..last];
      FilterKeepsFirsts(led, prev);
      assert AllIn(led, coords) <==> AllIn(led, prev) && coords[last] in led.accounts;
      if AllIn(led, coords) {
        FirstPerTokenOfPrefix(led, coords, last, last);
        TokensAre(led, prev);
        var (used0, kept0) := FilterCoords(led, prev).value;
        var token := led.accounts[coords[last]].tokenID;
        assert FirstOfToken(led, coords, last) <==> token !in used0 by {
          assert forall j :: 0 <= j < last ==> coords[j] == prev[j];
        }
        if token !in used0 {
          AppendKeepsDistinct(led, kept0, coords[last]);
        }
      }
    }
  }

  lemma AppendKeepsDistinct(led: Ledger, kept: seq<Idx>, i: Idx)
    requires AllIn(led, kept) && DistinctTokens(led, kept) && i in led.accounts
    requires led.accounts[i].tokenID !in Tokens(led, kept)
    ensures AllIn(led, kept + [i]) && DistinctTokens(led, kept + [i])
    ensures Tokens(led, kept + [i]) == Tokens(led, kept) + {led.accounts[i].tokenID}
  {
    TokensAre(led, kept);
    assert (kept + [i])[..|kept|] == kept;
  }

  ghost predicate IsCoordMap(led: Ledger, idxs: seq<Idx>, m: map<TokenID, Idx>)
    requires AllIn(led, idxs)
  {
    && m.Keys == Tokens(led, idxs)
    && forall k :: 0 <= k < |idxs| ==>
         led.accounts[idxs[k]].tokenID in m && m[led.accounts[idxs[k]].tokenID] == idxs[k]
  }

  // The map has exactly the tokens of the list, each with the account that has it.
  lemma {:induction false} CoordMapIs(led: Ledger, idxs: seq<Idx>)
    requires AccountsUpTo(led, led.currentIdx) && AllIn(led, idxs) && DistinctTokens(led, idxs)
    ensures CoordMap(led, idxs).Ok? && IsCoordMap(led, idxs, CoordMap(led, idxs).value)
  {
    if idxs != [] {
      var last := |idxs| - 1;
      var front := idxs[..last];
      CoordMapIs(led, front);
      assert led.Get(idxs[last]).Ok?;
      forall k | 0 <= k < last
        ensures led.accounts[idxs[k]].tokenID != led.accounts[idxs[last]].tokenID
        ensures idxs[k] == front[k]
      {
      }
    }
  }

  lemma CoordMapLookup(led: Ledger, idxs: seq<Idx>, m: map<TokenID, Idx>, t: TokenID)
    requires AllIn(led, idxs) && IsCoordMap(led, idxs, m) && t in m
    ensures m[t] in idxs && m[t] in led.accounts && led.accounts[m[t]].tokenID == t
  {
    TokensAre(led, idxs);
  }

  // ---- accumulating ----

  // Each token with a coordinator account has one total, kept twice.
  ghost predicate FeesOK(st: BState, coordOf: map<TokenID, Idx>) {
    && st.collected.Keys == coordOf.Keys
    && (forall t :: t in coordOf ==>
          && coordOf[t] in st.led.accounts && st.led.accounts[coordOf[t]].tokenID == t
          && coordOf[t] in st.accumulated && st.accumulated[coordOf[t]] == st.collected[t])
  }

  // A fee reaches both totals of its own token and no other; accruing never fails.
  lemma AccrueKeepsTotals(st: BState, coordOf: map<TokenID, Idx>, token: TokenID, fee: nat)
    requires AccountsUpTo(st.led, st.led.currentIdx) && FeesOK(st, coordOf)
    ensures Accrue(st, coordOf, token, fee).Ok?
    ensures var st' := Accrue(st, coordOf, token, fee).value;
      && FeesOK(st', coordOf)
      && st'.accumulated.Keys == st.accumulated.Keys
      && st'.led == st.led && st'.exits == st.exits
      && forall t :: t in coordOf ==> st'.collected[t] == st.collected[t] + if t == token then fee else 0
  {
  }

  // ---- paying ----

  ghost function Paid(led: Ledger, idxs: seq<Idx>, accumulated: map<Idx, nat>): map<Idx, Account>
    requires forall i :: i in idxs ==> i in accumulated
  {
    map i | i in led.accounts :: if i in idxs then Raised(led.accounts[i], accumulated[i]) else led.accounts[i]
  }

  lemma PayOneIs(led: Ledger, i: Idx, accumulated: map<Idx, nat>)
    requires AccountsUpTo(led, led.currentIdx) && PayOne(led, i, accumulated).Ok?
    ensures i in led.accounts && i in accumulated
    ensures var led' := PayOne(led, i, accumulated).value;
      && led' == led.(accounts := led.accounts[i := Raised(led.accounts[i], accumulated[i])])
      && AccountsUpTo(led', led.currentIdx) && SameShape(led, led') && SameNonces(led, led')
  {
    UpdateKeeps(led, led.currentIdx, i, Raised(led.accounts[i], accumulated[i]));
  }

  lemma PaidOneMore(led: Ledger, front: seq<Idx>, i: Idx, accumulated: map<Idx, nat>)
    requires AllIn(led, front) && i in led.accounts && i !in front && i in accumulated
    requires forall j :: j in front ==> j in accumulated
    ensures var m := Paid(led, front, accumulated);
      Paid(led, front + [i], accumulated) == m[i := Raised(m[i], accumulated[i])]
  {
  }

  // Each coordinator account is credited its total exactly once, and nobody else is touched.
  lemma {:induction false} PayFeesIs(led: Ledger, idxs: seq<Idx>, accumulated: map<Idx, nat>)
    requires AccountsUpTo(led, led.currentIdx) && AllIn(led, idxs) && DistinctTokens(led, idxs)
    requires PayFees(led, idxs, accumulated).Ok?
    ensures forall i :: i in idxs ==> i in accumulated
    ensures var led' := PayFees(led, idxs, accumulated).value;
      && led' == led.(accounts := Paid(led, idxs, accumulated))
      && AccountsUpTo(led', led.currentIdx) && SameShape(led, led') && SameNonces(led, led')
  {
    if idxs == [] {
      assert Paid(led, [], accumulated) == led.accounts;
    } else {
      var last := |idxs| - 1;
      var front := idxs[..last];
      PayFeesIs(led, front, accumulated);
      var led1 := PayFees(led, front, accumulated).value;
      PayOneIs(led1, idxs[last], accumulated);
      PaidOneMore(led, front, idxs[last], accumulated);
      assert idxs == front + [idxs[last]];
    }
  }
}
