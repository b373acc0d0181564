// The shared payment manager: the provider table, the gate in front of a
// provider call, the transaction and subscription stores, their queries,
// and the amount and fee helpers.

module PaymentManager {
  import opened Wrappers
  import opened Strings
  import opened Seqs

  const DayMs := 86400000
  const MaxAmount := 10000.0

  datatype Provider = Provider(id: string, name: string, enabled: bool)

  datatype PaymentRequest = PaymentRequest(
    amount: real,
    currency: string,
    provider: string,
    userId: string,
    description: string)

  datatype PaymentResult = PaymentResult(success: bool, transactionId: Option<string>, error: Option<string>)

  datatype StoredTransaction = StoredTransaction(
    id: string,
    request: PaymentRequest,
    status: string,
    timestamp: int,
    result: PaymentResult)

  datatype SubscriptionStatus = Active | Cancelled | Expired

  datatype Interval = Monthly | Yearly

  datatype Subscription = Subscription(
    id: string,
    userId: string,
    plan: string,
    status: SubscriptionStatus,
    startDate: int,
    endDate: int,
    amount: real,
    interval: Interval)

  /** `validateAmount`: positive and at most 10000 (reals are always finite). */
  function ValidateAmount(amount: real): (ok: bool)
    ensures ok <==> 0.0 < amount <= MaxAmount
  {
    amount > 0.0 && amount <= MaxAmount
  }

  /** The fee rate of a provider: 2% on Pi Network, 2.9% on PayPal and
      Stripe, 3% for anything else. */
  function FeeRate(provider: string): (rate: real)
    ensures rate == 0.02 <==> provider == "pi_network"
    ensures rate == 0.029 <==> provider == "paypal" || provider == "stripe"
    ensures rate == 0.03 <==> !(provider in {"pi_network", "paypal", "stripe"})
  {
    if provider == "pi_network" then 0.02
    else if provider == "paypal" || provider == "stripe" then 0.029
    else 0.03
  }

  /** `calculateFees`. */
  function CalculateFees(amount: real, provider: string): real {
    amount * FeeRate(provider)
  }

  /** A fee is never more than 3% of a non-negative amount, and never negative. */
  lemma FeesBounded(amount: real, provider: string)
    requires amount >= 0.0
    ensures 0.0 <= CalculateFees(amount, provider) <= amount * 0.03
  {
  }

  /** The fee grows with the amount. */
  lemma FeesMonotone(a: real, b: real, provider: string)
    requires a <= b
    ensures CalculateFees(a, provider) <= CalculateFees(b, provider)
  {
  }

  /** A result is kept when it succeeded and carries a non-empty id. */
  predicate Stores(r: PaymentResult) {
    r.success && r.transactionId.Some? && r.transactionId.value != ""
  }

  function EndDate(start: int, interval: Interval): (e: int)
    ensures e > start
    ensures interval == Yearly ==> e == start + 365 * DayMs
    ensures interval == Monthly ==> e == start + 30 * DayMs
  {
    start + (if interval == Monthly then 30 else 365) * DayMs
  }

  /** `Map.set`: a new key goes last, an existing key keeps its place. */
  function PutKey(order: seq<string>, k: string): (r: seq<string>)
    ensures k in r && (forall x :: x in order ==> x in r) && (forall x :: x in r ==> x in order || x == k)
    ensures NoDuplicates(order) ==> NoDuplicates(r)
  {
    if k in order then order else order + [k]
  }

  function Timestamp(tx: StoredTransaction): real {
    tx.timestamp as real
  }

  function TxOf(userId: string): StoredTransaction -> bool {
    (tx: StoredTransaction) => tx.request.userId == userId
  }

  function SubOf(userId: string): Subscription -> bool {
    (s: Subscription) => s.userId == userId
  }

  function IsEnabled(p: Provider): bool {
    p.enabled
  }

  /**
   * The transactions of `userId` in a store, newest first, cut at `limit`:
   * drawn from the user's transactions without repeating any, and none left
   * out is newer than one kept.
   */
  function History(order: seq<string>, txs: map<string, StoredTransaction>, userId: string, limit: int): (r: seq<StoredTransaction>)
    requires forall k :: k in order ==> k in txs
    ensures forall k :: 0 <= k < |r| ==> r[k].request.userId == userId && r[k] in txs.Values
    ensures SortedDesc(r, Timestamp)
    ensures limit >= 0 ==> |r| == Min(limit, |Filter(ValuesOf(order, txs), TxOf(userId))|)
    ensures multiset(r) <= multiset(Filter(ValuesOf(order, txs), TxOf(userId)))
    ensures forall x, y ::
      (x in Filter(ValuesOf(order, txs), TxOf(userId)) && y in r
       && multiset(r)[x] < multiset(Filter(ValuesOf(order, txs), TxOf(userId)))[x]) ==> Timestamp(x) <= Timestamp(y)
  {
    ValuesInMap(order, txs);
    NewestOfUser(ValuesOf(order, txs), txs.Values, userId, limit);
    Slice(SortDesc(Filter(ValuesOf(order, txs), TxOf(userId)), Timestamp), 0, limit)
  }

  /** The newest `limit` transactions of the user among stored ones. */
  lemma NewestOfUser(all: seq<StoredTransaction>, stored: set<StoredTransaction>, userId: string, limit: int)
    requires forall t :: t in all ==> t in stored
    ensures var r := Slice(SortDesc(Filter(all, TxOf(userId)), Timestamp), 0, limit);
      (forall k :: 0 <= k < |r| ==> r[k].request.userId == userId && r[k] in stored)
      && SortedDesc(r, Timestamp)
      && (limit >= 0 ==> |r| == Min(limit, |Filter(all, TxOf(userId))|))
      && multiset(r) <= multiset(Filter(all, TxOf(userId)))
      && forall x, y ::
        (x in Filter(all, TxOf(userId)) && y in r && multiset(r)[x] < multiset(Filter(all, TxOf(userId)))[x])
        ==> Timestamp(x) <= Timestamp(y)
  {
    var mine := Filter(all, TxOf(userId));
    var n := SliceIndex(limit, |mine|);
    var r := Slice(SortDesc(mine, Timestamp), 0, limit);
    assert r == SortDesc(mine, Timestamp)[..n];
    assert limit >= 0 ==> |r| == Min(limit, |mine|);
    TopOfFiltered(all, TxOf(userId), Timestamp, n);
    forall k | 0 <= k < |r| ensures r[k].request.userId == userId && r[k] in stored {
      assert TxOf(userId)(r[k]);
      assert r[k] in multiset(r);
      FilterMembers(all, TxOf(userId), r[k]);
    }
  }

  class Manager {
    var providers: map<string, Provider>
    var providerOrder: seq<string>
    var transactions: map<string, StoredTransaction>
    var txOrder: seq<string>
    var subscriptions: map<string, Subscription>
    var subOrder: seq<string>

    /** Each store's key list is its key set without repeats, and records
        are filed under their own ids. */
    ghost predicate Valid()
      reads this
    {
      NoDuplicates(providerOrder) && (forall k :: k in providers <==> k in providerOrder)
      && NoDuplicates(txOrder) && (forall k :: k in transactions <==> k in txOrder)
      && NoDuplicates(subOrder) && (forall k :: k in subscriptions <==> k in subOrder)
      && (forall k :: k in providers ==> providers[k].id == k)
      && (forall k :: k in transactions ==> transactions[k].id == k)
      && (forall k :: k in subscriptions ==> subscriptions[k].id == k)
    }

    /** `initializeProviders`: Pi Network is always on, PayPal and Stripe only
        when their keys are configured; nothing is stored yet. */
    constructor(paypalConfigured: bool, stripeConfigured: bool)
      ensures Valid()
      ensures providerOrder == ["pi_network", "paypal", "stripe"]
      ensures providers == map["pi_network" := Provider("pi_network", "Pi Network", true),
                               "paypal" := Provider("paypal", "PayPal", paypalConfigured),
                               "stripe" := Provider("stripe", "Stripe", stripeConfigured)]
      ensures transactions == map[] && txOrder == [] && subscriptions == map[] && subOrder == []
    {
      providers := map["pi_network" := Provider("pi_network", "Pi Network", true),
                       "paypal" := Provider("paypal", "PayPal", paypalConfigured),
                       "stripe" := Provider("stripe", "Stripe", stripeConfigured)];
      providerOrder := ["pi_network", "paypal", "stripe"];
      transactions, txOrder := map[], [];
      subscriptions, subOrder := map[], [];
    }

    predicate Available(provider: string)
      reads this
    {
      provider in providers && providers[provider].enabled
    }

    /** `processPayment`: `outcome` is what the provider's own routine
        returns. A missing or disabled provider fails at once; a kept result
        is filed under its transaction id. */
    method ProcessPayment(req: PaymentRequest, outcome: PaymentResult, now: int) returns (r: PaymentResult)
      requires Valid()
      modifies this
      ensures Valid()
      ensures providers == old(providers) && providerOrder == old(providerOrder)
      ensures subscriptions == old(subscriptions) && subOrder == old(subOrder)
      ensures !old(Available(req.provider)) ==>
        r == PaymentResult(false, None, Some("Payment provider " + req.provider + " not available"))
      ensures old(Available(req.provider)) && !(req.provider in {"pi_network", "paypal", "stripe"}) ==>
        r == PaymentResult(false, None, Some("Unsupported payment provider"))
      ensures old(Available(req.provider)) && req.provider in {"pi_network", "paypal", "stripe"} ==> r == outcome
      ensures r == outcome && Stores(outcome) ==>
        transactions == old(transactions)[outcome.transactionId.value :=
          StoredTransaction(outcome.transactionId.value, req, "completed", now, outcome)]
        && txOrder == PutKey(old(txOrder), outcome.transactionId.value)
      ensures !(r == outcome && Stores(outcome)) ==> transactions == old(transactions) && txOrder == old(txOrder)
    {
      if !(req.provider in providers && providers[req.provider].enabled) {
        return PaymentResult(false, None, Some("Payment provider " + req.provider + " not available"));
      }
      if !(req.provider in {"pi_network", "paypal", "stripe"}) {
        return PaymentResult(false, None, Some("Unsupported payment provider"));
      }
      r := outcome;
      if r.success && r.transactionId.Some? && r.transactionId.value != "" {
        var id := r.transactionId.value;
        transactions := transactions[id := StoredTransaction(id, req, "completed", now, r)];
        txOrder := PutKey(txOrder, id);
      }
    }

    /** `createSubscription`: an active subscription running 30 or 365 days. */
    method CreateSubscription(userId: string, plan: string, amount: real, interval: Interval, now: int)
      returns (s: Subscription)
      requires Valid()
      modifies this
      ensures Valid()
      ensures s == Subscription("sub_" + IntToString(now) + "_" + userId, userId, plan, Active, now,
                                EndDate(now, interval), amount, interval)
      ensures subscriptions == old(subscriptions)[s.id := s] && subOrder == PutKey(old(subOrder), s.id)
      ensures providers == old(providers) && providerOrder == old(providerOrder)
      ensures transactions == old(transactions) && txOrder == old(txOrder)
    {
      s := Subscription("sub_" + IntToString(now) + "_" + userId, userId, plan, Active, now,
                        now + (if interval == Monthly then 30 else 365) * DayMs, amount, interval);
      subscriptions := subscriptions[s.id := s];
      subOrder := PutKey(subOrder, s.id);
    }

    /** `cancelSubscription`: false and no change for an unknown id;
        otherwise only that subscription's status becomes cancelled. */
    method CancelSubscription(id: string) returns (ok: bool)
      requires Valid()
      modifies this
      ensures Valid()
      ensures ok <==> id in old(subscriptions)
      ensures ok ==> subscriptions == old(subscriptions)[id := old(subscriptions)[id].(status := Cancelled)]
      ensures !ok ==> subscriptions == old(subscriptions)
      ensures subOrder == old(subOrder) && providers == old(providers) && providerOrder == old(providerOrder)
      ensures transactions == old(transactions) && txOrder == old(txOrder)
    {
      if id !in subscriptions {
        return false;
      }
      subscriptions := subscriptions[id := subscriptions[id].(status := Cancelled)];
      ok := true;
    }

    /** `getUserSubscriptions`: the user's subscriptions in creation order. */
    function GetUserSubscriptions(userId: string): (r: seq<Subscription>)
      requires Valid()
      reads this
      ensures forall s :: s in r <==> s in subscriptions.Values && s.userId == userId
      ensures IsSubsequence(r, ValuesOf(subOrder, subscriptions))
    {
      var all := ValuesOf(subOrder, subscriptions);
      assert forall s :: s in all <==> s in subscriptions.Values by {
        forall s | s in subscriptions.Values ensures s in all {
          var k :| k in subscriptions && subscriptions[k] == s;
          var i :| 0 <= i < |subOrder| && subOrder[i] == k;
          assert all[i] == s;
        }
      }
      FilterKeepsMembers(all, SubOf(userId));
      FilterSubsequence(all, SubOf(userId));
      Filter(all, SubOf(userId))
    }

    /** `getTransactionHistory`: the user's transactions, newest first, then
        `slice(0, limit)`. */
    function GetTransactionHistory(userId: string, limit: int): (r: seq<StoredTransaction>)
      requires Valid()
      reads this
      ensures forall k :: 0 <= k < |r| ==> r[k].request.userId == userId && r[k] in transactions.Values
      ensures SortedDesc(r, Timestamp)
      ensures limit >= 0 ==> |r| == Min(limit, |Filter(ValuesOf(txOrder, transactions), TxOf(userId))|)
      ensures multiset(r) <= multiset(Filter(ValuesOf(txOrder, transactions), TxOf(userId)))
      ensures forall x, y ::
        (x in Filter(ValuesOf(txOrder, transactions), TxOf(userId)) && y in r
         && multiset(r)[x] < multiset(Filter(ValuesOf(txOrder, transactions), TxOf(userId)))[x])
        ==> Timestamp(x) <= Timestamp(y)
    {
      History(txOrder, transactions, userId, limit)
    }

    /** `getAvailableProviders`: exactly the enabled providers, in table order. */
    function GetAvailableProviders(): (r: seq<Provider>)
      requires Valid()
      reads this
      ensures forall p :: p in r <==> p in providers.Values && p.enabled
      ensures IsSubsequence(r, ValuesOf(providerOrder, providers))
    {
      var all := ValuesOf(providerOrder, providers);
      assert forall p :: p in all <==> p in providers.Values by {
        forall p | p in providers.Values ensures p in all {
          var k :| k in providers && providers[k] == p;
          var i :| 0 <= i < |providerOrder| && providerOrder[i] == k;
          assert all[i] == p;
        }
      }
      FilterKeepsMembers(all, IsEnabled);
      FilterSubsequence(all, IsEnabled);
      Filter(all, IsEnabled)
    }
  }

  function Min(a: int, b: int): int {
    if a < b then a else b
  }

  lemma FilterKeepsMembers<T>(s: seq<T>, p: T -> bool)
    ensures forall x :: x in Filter(s, p) <==> x in s && p(x)
  {
    forall x ensures x in Filter(s, p) <==> x in s && p(x) {
      FilterMembers(s, p, x);
    }
  }
}
