/**
 The bucket and provider scan of GetTokenRate. Decimals are reals; the Redis lists are a
 fixed snapshot, already split into their parts.
*/
module RateScan {
  import opened Base

  datatype Provider = Provider(symbol: string, rate: real)

  datatype Bucket = Bucket(min: real, max: real, providers: seq<Provider>)

  /** What one request asks: how much of which token. */
  datatype Quote = Quote(symbol: string, amount: real)

  predicate InRange(q: Quote, b: Bucket, rate: real) {
    b.min <= q.amount * rate <= b.max
  }

  /** The first provider of the token among the first n of a bucket. */
  function FirstToken(q: Quote, b: Bucket, n: nat): Option<real>
    requires n <= |b.providers|
  {
    if n == 0 then None
    else
      var before := FirstToken(q, b, n - 1);
      if before.Some? then before
      else if b.providers[n - 1].symbol == q.symbol then Some(b.providers[n - 1].rate)
      else None
  }

  /** The first provider of the token whose fiat amount fits the bucket, among the first n. */
  function FirstMatch(q: Quote, b: Bucket, n: nat): Option<real>
    requires n <= |b.providers|
  {
    if n == 0 then None
    else
      var before := FirstMatch(q, b, n - 1);
      if before.Some? then before
      else if b.providers[n - 1].symbol == q.symbol && InRange(q, b, b.providers[n - 1].rate) then
        Some(b.providers[n - 1].rate)
      else None
  }

  predicate Offers(q: Quote, b: Bucket, k: nat)
    requires k < |b.providers|
  {
    b.providers[k].symbol == q.symbol
  }

  predicate Fits(q: Quote, b: Bucket, k: nat)
    requires k < |b.providers|
  {
    Offers(q, b, k) && b.min <= q.amount * b.providers[k].rate && q.amount * b.providers[k].rate <= b.max
  }

  lemma {:induction false} FirstTokenIsFirst(q: Quote, b: Bucket, n: nat)
    requires n <= |b.providers|
    ensures var r := FirstToken(q, b, n);
            if r.Some? then
              exists k :: 0 <= k < n && Offers(q, b, k) && r.value == b.providers[k].rate &&
                          forall m :: 0 <= m < k ==> !Offers(q, b, m)
            else forall k :: 0 <= k < n ==> !Offers(q, b, k)
  {
    if n > 0 {
      FirstTokenIsFirst(q, b, n - 1);
      assert Offers(q, b, n - 1) || !Offers(q, b, n - 1);
    }
  }

  lemma {:induction false} FirstMatchIsFirst(q: Quote, b: Bucket, n: nat)
    requires n <= |b.providers|
    ensures var r := FirstMatch(q, b, n);
            if r.Some? then
              exists k :: 0 <= k < n && Fits(q, b, k) && r.value == b.providers[k].rate &&
                          forall m :: 0 <= m < k ==> !Fits(q, b, m)
            else forall k :: 0 <= k < n ==> !Fits(q, b, k)
  {
    if n > 0 {
      FirstMatchIsFirst(q, b, n - 1);
      assert Fits(q, b, n - 1) || !Fits(q, b, n - 1);
    }
  }

  function Match(q: Quote, b: Bucket): Option<real> {
    FirstMatch(q, b, |b.providers|)
  }

  function Top(q: Quote, b: Bucket): Option<real> {
    FirstToken(q, b, |b.providers|)
  }

  /** The bucket offers the token, but its first offer does not fit: its maximum is looked at. */
  predicate Spills(q: Quote, b: Bucket) {
    Top(q, b).Some? && !InRange(q, b, Top(q, b).value)
  }

  /** The running maximum after n buckets. */
  function Highest(q: Quote, bs: seq<Bucket>, n: nat): real
    requires n <= |bs|
  {
    if n == 0 then 0.0
    else
      var h := Highest(q, bs, n - 1);
      if Spills(q, bs[n - 1]) && bs[n - 1].max > h then bs[n - 1].max else h
  }

  /** Bucket i overwrites the answer: it has a match, or it spills over everything before it. */
  predicate Writes(q: Quote, bs: seq<Bucket>, i: nat)
    requires i < |bs|
  {
    Match(q, bs[i]).Some? || (Spills(q, bs[i]) && bs[i].max > Highest(q, bs, i))
  }

  function LastWriter(q: Quote, bs: seq<Bucket>, n: nat): (r: Option<nat>)
    requires n <= |bs|
    ensures r.Some? ==> r.value < n && Writes(q, bs, r.value)
    ensures forall j :: 0 <= j < n && (r.Some? ==> j > r.value) ==> !Writes(q, bs, j)
  {
    if n == 0 then None
    else if Writes(q, bs, n - 1) then Some(n - 1)
    else LastWriter(q, bs, n - 1)
  }

  /** What a bucket that writes leaves behind: its match, else its first offer. */
  function Offer(q: Quote, b: Bucket): real
    requires Match(q, b).Some? || Top(q, b).Some?
  {
    if Match(q, b).Some? then Match(q, b).value else Top(q, b).value
  }

  function Rate(q: Quote, bs: seq<Bucket>, n: nat, market: real): real
    requires n <= |bs|
  {
    var w := LastWriter(q, bs, n);
    if w.Some? then Offer(q, bs[w.value]) else market
  }

  /** The scan as it runs: a running maximum and an answer that later buckets may overwrite. */
  method GetTokenRate(q: Quote, buckets: seq<Bucket>, market: real) returns (rateResponse: real)
    ensures rateResponse == Rate(q, buckets, |buckets|, market)
  {
    rateResponse := market;
    var highestMaxAmount := 0.0;
    for i := 0 to |buckets|
      invariant rateResponse == Rate(q, buckets, i, market)
      invariant highestMaxAmount == Highest(q, buckets, i)
    {
      var b := buckets[i];
      ghost var r0, h0 := rateResponse, highestMaxAmount;
      var index := 0;
      while true
        invariant 0 <= index <= |b.providers|
        invariant FirstMatch(q, b, index).None?
        invariant FirstToken(q, b, index).Some? ==> !InRange(q, b, FirstToken(q, b, index).value)
        invariant var first := FirstToken(q, b, index);
                  if first.Some? && b.max > h0 then
                    rateResponse == first.value && highestMaxAmount == b.max
                  else
                    rateResponse == r0 && highestMaxAmount == h0
        decreases |b.providers| - index
      {
        if index == |b.providers| {
          break;
        }
        var p := b.providers[index];
        if p.symbol == q.symbol {
          if InRange(q, b, p.rate) {
            rateResponse := p.rate;
            assert FirstMatch(q, b, index + 1) == Some(p.rate);
            MatchIsStable(q, b, index + 1, |b.providers|);
            TokenIsStable(q, b, index + 1, |b.providers|);
            break;
          } else if b.max > highestMaxAmount {
            highestMaxAmount := b.max;
            rateResponse := p.rate;
          }
        }
        index := index + 1;
      }
    }
  }

  lemma {:induction false} MatchIsStable(q: Quote, b: Bucket, n: nat, m: nat)
    requires n <= m <= |b.providers| && FirstMatch(q, b, n).Some?
    ensures FirstMatch(q, b, m) == FirstMatch(q, b, n)
  {
    if n < m {
      MatchIsStable(q, b, n, m - 1);
    }
  }

  lemma {:induction false} TokenIsStable(q: Quote, b: Bucket, n: nat, m: nat)
    requires n <= m <= |b.providers| && FirstToken(q, b, n).Some?
    ensures FirstToken(q, b, m) == FirstToken(q, b, n)
  {
    if n < m {
      TokenIsStable(q, b, n, m - 1);
    }
  }

  // ------------------------------------------------------------------ what the scan means

  /** The running maximum is the greatest of zero and the maxima of the buckets that spilled. */
  lemma {:induction false} HighestIsGreatest(q: Quote, bs: seq<Bucket>, n: nat)
    requires n <= |bs|
    ensures Highest(q, bs, n) >= 0.0
    ensures forall i :: 0 <= i < n && Spills(q, bs[i]) ==> bs[i].max <= Highest(q, bs, n)
    ensures Highest(q, bs, n) == 0.0 ||
            exists i :: 0 <= i < n && Spills(q, bs[i]) && bs[i].max == Highest(q, bs, n)
  {
    if n > 0 {
      HighestIsGreatest(q, bs, n - 1);
    }
  }

  lemma {:induction false} HighestNeverDecreases(q: Quote, bs: seq<Bucket>, n: nat, m: nat)
    requires n <= m <= |bs|
    ensures Highest(q, bs, n) <= Highest(q, bs, m)
  {
    if n < m {
      HighestNeverDecreases(q, bs, n, m - 1);
    }
  }

  /** Bucket j offers the token out of range, with a maximum above zero and every earlier spill. */
  ghost predicate SpillsOver(q: Quote, bs: seq<Bucket>, j: nat)
    requires j < |bs|
  {
    && Spills(q, bs[j]) && bs[j].max > 0.0
    && forall i :: 0 <= i < j && Spills(q, bs[i]) ==> bs[i].max < bs[j].max
  }

  lemma SpillsOverMeansWrites(q: Quote, bs: seq<Bucket>, j: nat)
    requires j < |bs|
    ensures Writes(q, bs, j) <==> Match(q, bs[j]).Some? || SpillsOver(q, bs, j)
  {
    HighestIsGreatest(q, bs, j);
  }

  ghost predicate LastMatch(q: Quote, bs: seq<Bucket>, i: nat) {
    i < |bs| && Match(q, bs[i]).Some? && forall j :: i < j < |bs| ==> Match(q, bs[j]).None?
  }

  /**
   A match is not sticky. The last bucket whose range fits decides the answer if and only
   if no later bucket spills over, that is offers the token out of range with a maximum
   above zero and above every spill before it.
  */
  lemma MatchSurvivesIff(q: Quote, bs: seq<Bucket>, i: nat)
    requires LastMatch(q, bs, i)
    ensures LastWriter(q, bs, |bs|) == Some(i) <==> forall j :: i < j < |bs| ==> !SpillsOver(q, bs, j)
  {
    forall j | 0 <= j < |bs|
      ensures Writes(q, bs, j) <==> Match(q, bs[j]).Some? || SpillsOver(q, bs, j)
    {
      SpillsOverMeansWrites(q, bs, j);
    }
    assert Writes(q, bs, i);
  }

  /** When the match survives, the answer is its rate and fits its bucket. */
  lemma SurvivingMatchFits(q: Quote, bs: seq<Bucket>, i: nat, market: real)
    requires LastMatch(q, bs, i) && forall j :: i < j < |bs| ==> !SpillsOver(q, bs, j)
    ensures bs[i].min <= q.amount * Rate(q, bs, |bs|, market) <= bs[i].max
    ensures Match(q, bs[i]) == Some(Rate(q, bs, |bs|, market))
  {
    MatchSurvivesIff(q, bs, i);
    FirstMatchIsFirst(q, bs[i], |bs[i].providers|);
  }

  /** Some bucket has the greatest positive maximum among those that spill, and is the first with it. */
  ghost predicate FirstGreatest(q: Quote, bs: seq<Bucket>, i: nat) {
    && i < |bs| && SpillsOver(q, bs, i)
    && forall j :: 0 <= j < |bs| && Spills(q, bs[j]) ==> bs[j].max <= bs[i].max
  }

  /** Without any match the answer is the first offer of the first bucket with the greatest maximum. */
  lemma NoMatchPicksGreatest(q: Quote, bs: seq<Bucket>, market: real, i: nat)
    requires forall j :: 0 <= j < |bs| ==> Match(q, bs[j]).None?
    requires FirstGreatest(q, bs, i)
    ensures Rate(q, bs, |bs|, market) == Top(q, bs[i]).value
  {
    forall j | 0 <= j < |bs|
      ensures Writes(q, bs, j) <==> SpillsOver(q, bs, j)
    {
      SpillsOverMeansWrites(q, bs, j);
    }
    assert Writes(q, bs, i);
    assert forall j :: i < j < |bs| ==> !SpillsOver(q, bs, j);
  }

  /** With neither a match nor a spill above zero it is the market rate, and there is no third case. */
  lemma NoMatchElseMarket(q: Quote, bs: seq<Bucket>, market: real)
    requires forall j :: 0 <= j < |bs| ==> Match(q, bs[j]).None?
    ensures if exists i: nat :: FirstGreatest(q, bs, i) then
              LastWriter(q, bs, |bs|).Some?
            else
              Rate(q, bs, |bs|, market) == market &&
              forall j :: 0 <= j < |bs| && Spills(q, bs[j]) ==> bs[j].max <= 0.0
  {
    var w := LastWriter(q, bs, |bs|);
    HighestIsGreatest(q, bs, |bs|);
    if w.Some? {
      GreatestWasWritten(q, bs, w.value);
    } else {
      forall j | 0 <= j < |bs|
        ensures !SpillsOver(q, bs, j)
      {
        SpillsOverMeansWrites(q, bs, j);
      }
      HighestUnchanged(q, bs, 0, |bs|);
    }
  }

  lemma GreatestWasWritten(q: Quote, bs: seq<Bucket>, w: nat)
    requires LastWriter(q, bs, |bs|) == Some(w) && Match(q, bs[w]).None?
    ensures FirstGreatest(q, bs, w)
  {
    SpillsOverMeansWrites(q, bs, w);
    forall j | w < j < |bs|
      ensures !SpillsOver(q, bs, j)
    {
      SpillsOverMeansWrites(q, bs, j);
    }
    HighestUnchanged(q, bs, w + 1, |bs|);
    HighestIsGreatest(q, bs, |bs|);
  }

  lemma {:induction false} HighestUnchanged(q: Quote, bs: seq<Bucket>, n: nat, m: nat)
    requires n <= m <= |bs| && forall j :: n <= j < m ==> !SpillsOver(q, bs, j)
    ensures Highest(q, bs, m) == Highest(q, bs, n)
  {
    if n < m {
      HighestUnchanged(q, bs, n, m - 1);
      HighestIsGreatest(q, bs, m - 1);
      assert !SpillsOver(q, bs, m - 1);
    }
  }

  // ------------------------------------------------------------------ the answer, from the buckets alone

  /** Provider k is the first of its bucket that fits, or the first that offers the token at all. */
  ghost predicate FirstFit(q: Quote, b: Bucket, k: nat) {
    k < |b.providers| && Fits(q, b, k) && forall m :: 0 <= m < k ==> !Fits(q, b, m)
  }

  ghost predicate FirstOffer(q: Quote, b: Bucket, k: nat) {
    k < |b.providers| && Offers(q, b, k) && forall m :: 0 <= m < k ==> !Offers(q, b, m)
  }

  ghost predicate HasFit(q: Quote, b: Bucket) {
    exists k :: 0 <= k < |b.providers| && Fits(q, b, k)
  }

  /** The first offer of the bucket is out of its range. */
  ghost predicate Misses(q: Quote, b: Bucket) {
    exists k: nat :: FirstOffer(q, b, k) && !Fits(q, b, k)
  }

  /** The bucket decides the answer unless a later one does. */
  ghost predicate Decides(q: Quote, bs: seq<Bucket>, j: nat)
    requires j < |bs|
  {
    || HasFit(q, bs[j])
    || (Misses(q, bs[j]) && bs[j].max > 0.0 && forall i :: 0 <= i < j && Misses(q, bs[i]) ==> bs[i].max < bs[j].max)
  }

  lemma FitTells(q: Quote, b: Bucket)
    ensures Match(q, b).Some? <==> HasFit(q, b)
    ensures forall k: nat :: FirstFit(q, b, k) ==> Match(q, b) == Some(b.providers[k].rate)
  {
    FirstMatchIsFirst(q, b, |b.providers|);
    forall k: nat | FirstFit(q, b, k)
      ensures Match(q, b) == Some(b.providers[k].rate)
    {
      var m :| 0 <= m < |b.providers| && Fits(q, b, m) && Match(q, b) == Some(b.providers[m].rate) &&
               forall x :: 0 <= x < m ==> !Fits(q, b, x);
      assert !(m < k) && !(k < m);
    }
  }

  lemma OfferTells(q: Quote, b: Bucket)
    ensures Spills(q, b) <==> Misses(q, b)
    ensures forall k: nat :: FirstOffer(q, b, k) ==> Top(q, b) == Some(b.providers[k].rate)
  {
    FirstTokenIsFirst(q, b, |b.providers|);
    if Top(q, b).Some? {
      var m: nat :| m < |b.providers| && Offers(q, b, m) && Top(q, b) == Some(b.providers[m].rate) &&
                    forall x :: 0 <= x < m ==> !Offers(q, b, x);
      assert FirstOffer(q, b, m);
      forall k: nat | FirstOffer(q, b, k)
        ensures k == m
      {
        assert !(m < k) && !(k < m);
      }
    }
  }

  /** Bucket j is the last one that decides, and provider k the one of it that counts. */
  ghost predicate Gives(q: Quote, bs: seq<Bucket>, j: nat, k: nat) {
    && j < |bs| && Decides(q, bs, j) && (forall i :: j < i < |bs| ==> !Decides(q, bs, i))
    && (FirstFit(q, bs[j], k) || (!HasFit(q, bs[j]) && FirstOffer(q, bs[j], k)))
  }

  /**
   The answer is the market rate if no bucket decides; else the last one that does gives it the
   rate of its first provider that fits, or failing that of its first offer.
  */
  lemma RateTells(q: Quote, bs: seq<Bucket>, market: real)
    ensures (forall j :: 0 <= j < |bs| ==> !Decides(q, bs, j)) ==> Rate(q, bs, |bs|, market) == market
    ensures forall j: nat, k: nat :: Gives(q, bs, j, k) ==> Rate(q, bs, |bs|, market) == bs[j].providers[k].rate
  {
    forall j | 0 <= j < |bs|
      ensures Writes(q, bs, j) <==> Decides(q, bs, j)
    {
      SpillsOverMeansWrites(q, bs, j);
      FitTells(q, bs[j]);
      forall i | 0 <= i <= j
        ensures Spills(q, bs[i]) <==> Misses(q, bs[i])
      {
        OfferTells(q, bs[i]);
      }
      hide Spills, Misses;
    }
    forall j: nat, k: nat | Gives(q, bs, j, k)
      ensures Rate(q, bs, |bs|, market) == bs[j].providers[k].rate
    {
      FitTells(q, bs[j]);
      OfferTells(q, bs[j]);
      hide Decides, FirstFit, HasFit, FirstOffer;
    }
  }

  /** A bucket that fits, then a larger one that does not: the answer is the rate that does not fit. */
  lemma LaterBucketOverwritesMatch()
    ensures var q := Quote("USDC", 10.0);
            var bs := [Bucket(5.0, 50.0, [Provider("USDC", 2.0)]), Bucket(500.0, 900.0, [Provider("USDC", 3.0)])];
            Match(q, bs[0]) == Some(2.0) && Rate(q, bs, 2, 1.0) == 3.0 && !InRange(q, bs[1], 3.0)
  {
  }
}
