// The in-memory Pi Coin ledger: wallets keyed by user, a sliding-window rate
// limiter, earn/spend/transfer with level-up bonuses, history, leaderboard and
// total supply. Clock readings and generated transaction ids are parameters.
// The wallets map keeps its insertion order in `order`, as a JavaScript Map does.

module PiCoinManager {
  import opened Wrappers
  import opened Strings
  import opened Seqs

  const RateLimitWindow: int := 60000
  const MaxTransactionsPerMinute: int := 10
  const WelcomeBonus: real := 50.0

  datatype TxType = Earn | Spend | Transfer

  /** Every transaction the ledger records is completed; metadata is not modelled. */
  datatype Transaction = Transaction(
    id: string,
    userId: string,
    amount: real,
    txType: TxType,
    description: string,
    timestamp: int)

  datatype Wallet = Wallet(
    userId: string,
    balance: real,
    totalEarned: real,
    totalSpent: real,
    transactions: seq<Transaction>,
    level: int,
    achievements: seq<string>)

  /** The ledger identity: the balance is what was earned minus what was spent. */
  predicate Consistent(w: Wallet) {
    w.balance == w.totalEarned - w.totalSpent
  }

  /** The wallet `createWallet` makes for a new user. */
  function NewWallet(userId: string, txId: string, now: int): (w: Wallet)
    ensures Consistent(w) && w.userId == userId
    ensures w.balance == 50.0 && w.totalEarned == 50.0 && w.totalSpent == 0.0
    ensures |w.transactions| == 1 && w.transactions[0].amount == 50.0 && w.transactions[0].txType == Earn
    ensures w.level == 1 && w.achievements == ["new_user"]
  {
    Wallet(userId, WelcomeBonus, WelcomeBonus, 0.0,
           [Transaction(txId, userId, WelcomeBonus, Earn, "Welcome bonus", now)], 1, ["new_user"])
  }

  /** Adds an incoming amount: balance and totalEarned grow, the transaction is appended. */
  function Credit(w: Wallet, tx: Transaction): (r: Wallet)
    ensures Consistent(w) ==> Consistent(r)
    ensures r.balance == w.balance + tx.amount && r.totalEarned == w.totalEarned + tx.amount
    ensures r.totalSpent == w.totalSpent && r.transactions == w.transactions + [tx]
  {
    w.(balance := w.balance + tx.amount, totalEarned := w.totalEarned + tx.amount,
       transactions := w.transactions + [tx])
  }

  /** Removes an outgoing amount: balance shrinks, totalSpent grows, the transaction is appended. */
  function Debit(w: Wallet, tx: Transaction): (r: Wallet)
    ensures Consistent(w) ==> Consistent(r)
    ensures r.balance == w.balance - tx.amount && r.totalSpent == w.totalSpent + tx.amount
    ensures r.totalEarned == w.totalEarned && r.transactions == w.transactions + [tx]
  {
    w.(balance := w.balance - tx.amount, totalSpent := w.totalSpent + tx.amount,
       transactions := w.transactions + [tx])
  }

  predicate DueForLevelUp(w: Wallet) {
    w.totalEarned >= (w.level * 100) as real
  }

  function LevelBonus(level: int): (r: real)
    ensures r > 0.0 <==> level > 0
  {
    (level * 10) as real
  }

  /** The first half of `checkLevelUp`: the level rises by one and "level_<n>" is recorded. */
  function Promote(w: Wallet): (r: Wallet)
    ensures r.level == w.level + 1 && r.achievements == w.achievements + ["level_" + IntToString(w.level + 1)]
    ensures r.balance == w.balance && r.totalEarned == w.totalEarned && r.totalSpent == w.totalSpent
    ensures r.userId == w.userId && r.transactions == w.transactions
  {
    w.(level := w.level + 1, achievements := w.achievements + ["level_" + IntToString(w.level + 1)])
  }

  /** The bonus transaction of a promoted wallet: ten times its new level. */
  function BonusTx(p: Wallet, id: string, now: int): Transaction {
    Transaction(id, p.userId, LevelBonus(p.level), Earn,
                "Level " + IntToString(p.level) + " achievement bonus", now)
  }

  /**
   * One `checkLevelUp` whose bonus does not check again: the promotion, then the
   * bonus credited with its own transaction, which the nested `earnCoins`
   * refuses when it is not positive.
   */
  function LevelUp(w: Wallet, bonusId: string, now: int): (r: Wallet)
    ensures Consistent(w) ==> Consistent(r)
    ensures DueForLevelUp(w) ==>
      (r.level == w.level + 1
       && r.achievements == w.achievements + ["level_" + IntToString(w.level + 1)]
       && (w.level + 1 > 0 ==>
             r.balance == w.balance + LevelBonus(w.level + 1)
             && r.transactions == w.transactions + [BonusTx(Promote(w), bonusId, now)])
       && (w.level + 1 <= 0 ==> r.balance == w.balance && r.transactions == w.transactions))
    ensures !DueForLevelUp(w) ==> r == w
    ensures r.totalSpent == w.totalSpent && r.userId == w.userId
  {
    if DueForLevelUp(w) then
      var p := Promote(w);
      if LevelBonus(p.level) > 0.0 then Credit(p, BonusTx(p, bonusId, now)) else p
    else w
  }

  /** A wallet after level-ups, with the number of bonuses credited (each a nested `earnCoins`). */
  datatype Promotion = Promotion(wallet: Wallet, bonuses: nat)

  /**
   * `checkLevelUp` as written, on the whole wallet: the bonus is a nested
   * `earnCoins`, which checks again, so the wallet keeps levelling up while it
   * is due. The k-th bonus gets the id `bonusIds(round + k)`. Each round moves
   * the wallet 10 × level − 90 closer to its next threshold or further from it,
   * so a wallet still due at level 9 or above stays due for ever: None.
   */
  function Cascade(w: Wallet, bonusIds: nat -> string, round: nat, now: int): (r: Option<Promotion>)
    ensures !DueForLevelUp(w) ==> r == Some(Promotion(w, 0))
    ensures r.None? ==> DueForLevelUp(w)
    ensures r.Some? ==>
      var v := r.value.wallet;
      v.userId == w.userId && v.totalSpent == w.totalSpent
      && (Consistent(w) ==> Consistent(v))
      && v.balance - w.balance == v.totalEarned - w.totalEarned >= 0.0
      && (r.value.bonuses > 0 ==> v.totalEarned > w.totalEarned)
      && v.level >= w.level && (DueForLevelUp(w) ==> v.level > w.level)
      && |v.transactions| == |w.transactions| + r.value.bonuses
      && v.transactions[..|w.transactions|] == w.transactions
      && |v.achievements| == |w.achievements| + (v.level - w.level)
      && v.achievements[..|w.achievements|] == w.achievements
      && (!DueForLevelUp(v) || v.level <= 0)
      && (w.level >= 0 ==> r.value.bonuses == v.level - w.level)
    decreases if w.level < 9 then 9 - w.level else 0
  {
    if !DueForLevelUp(w) then Some(Promotion(w, 0))
    else if w.level >= 9 then None
    else
      var p := Promote(w);
      if LevelBonus(p.level) <= 0.0 then Some(Promotion(p, 0))
      else
        var c := Credit(p, BonusTx(p, bonusIds(round), now));
        match Cascade(c, bonusIds, round + 1, now)
        case None => None
        case Some(q) => Some(Promotion(q.wallet, q.bonuses + 1))
  }

  /**
   * The level-ups after a credit. Where the source's cascade settles this is
   * that cascade; where it never settles, one level-up with its bonus.
   */
  function LevelUps(w: Wallet, bonusIds: nat -> string, now: int): (r: Promotion)
    ensures Consistent(w) ==> Consistent(r.wallet)
    ensures r.wallet.userId == w.userId && r.wallet.totalSpent == w.totalSpent
    ensures r.wallet.balance - w.balance == r.wallet.totalEarned - w.totalEarned >= 0.0
    ensures r.wallet.level != w.level <==> DueForLevelUp(w)
    ensures r.wallet.level >= w.level
    ensures |r.wallet.transactions| == |w.transactions| + r.bonuses
    ensures r.wallet.transactions[..|w.transactions|] == w.transactions
    ensures !DueForLevelUp(w) ==> r == Promotion(w, 0)
  {
    match Cascade(w, bonusIds, 0, now)
    case Some(q) => q
    case None => Promotion(LevelUp(w, bonusIds(0), now), 1)
  }

  /** The wallet after a successful `earnCoins`: the credit, then its level-ups. */
  function Earned(w: Wallet, userId: string, amount: real, description: string, now: int,
                  txId: string, bonusIds: nat -> string): (r: Wallet)
    ensures Consistent(w) ==> Consistent(r)
    ensures r.userId == w.userId && r.totalSpent == w.totalSpent && r.level >= w.level
    ensures r.balance >= w.balance + amount
    ensures r.totalEarned - w.totalEarned == r.balance - w.balance
    ensures |r.transactions| >= |w.transactions| + 1
    ensures r.transactions[..|w.transactions| + 1]
            == w.transactions + [Transaction(txId, userId, amount, Earn, description, now)]
  {
    var c := Credit(w, Transaction(txId, userId, amount, Earn, description, now));
    var r := LevelUps(c, bonusIds, now).wallet;
    assert r.transactions[..|w.transactions| + 1] == r.transactions[..|c.transactions|];
    r
  }

  /** The number of bonuses an earn credits, each one a nested `earnCoins`. */
  function EarnBonuses(w: Wallet, userId: string, amount: real, description: string, now: int,
                       txId: string, bonusIds: nat -> string): nat {
    LevelUps(Credit(w, Transaction(txId, userId, amount, Earn, description, now)), bonusIds, now).bonuses
  }

  // --------------------------------------------- the level-up cascade as written

  /**
   * The source's recursion on (totalEarned, level) alone, for at most `fuel`
   * rounds; None means it had not settled. A bonus that is not positive is
   * refused by the nested `earnCoins`, which ends the recursion.
   */
  function CascadeAsWritten(earned: real, level: int, fuel: nat): (r: Option<(real, int)>)
    ensures r.Some? ==> r.value.1 >= level && r.value.0 >= earned
    decreases fuel
  {
    if fuel == 0 then None
    else if earned >= (level * 100) as real then
      if (level + 1) * 10 <= 0 then Some((earned, level + 1))
      else CascadeAsWritten(earned + ((level + 1) * 10) as real, level + 1, fuel - 1)
    else Some((earned, level))
  }

  /** Rounds enough for the source's recursion to settle whenever it does. */
  function MaxRounds(level: int): nat {
    if level >= 9 then 1 else 10 - level
  }

  /** Once totalEarned is at least 900 and due for a level-up, the cascade never settles. */
  lemma {:induction false} CascadeNeverSettles(earned: real, level: int, fuel: nat)
    requires level >= 0 && earned >= 900.0 && earned >= (level * 100) as real
    ensures CascadeAsWritten(earned, level, fuel) == None
    decreases fuel
  {
    if fuel > 0 {
      var next := earned + ((level + 1) * 10) as real;
      assert next >= ((level + 1) * 100) as real;
      CascadeNeverSettles(next, level + 1, fuel - 1);
    }
  }

  /** A new wallet (50 earned, level 1) that earns 1000 never returns from `earnCoins`. */
  lemma NewWalletEarningThousandDiverges(fuel: nat)
    ensures CascadeAsWritten(1050.0, 1, fuel) == None
  {
    CascadeNeverSettles(1050.0, 1, fuel);
  }

  /**
   * The wallet cascade is the source's recursion: where it settles, the
   * recursion settles within MaxRounds rounds on the same totalEarned and level,
   * and where it does not, the recursion never settles.
   */
  lemma {:induction false} CascadeIsAsWritten(w: Wallet, bonusIds: nat -> string, round: nat, now: int, fuel: nat)
    requires fuel >= MaxRounds(w.level)
    ensures Cascade(w, bonusIds, round, now).Some? ==>
      CascadeAsWritten(w.totalEarned, w.level, fuel)
        == Some((Cascade(w, bonusIds, round, now).value.wallet.totalEarned,
                 Cascade(w, bonusIds, round, now).value.wallet.level))
    ensures Cascade(w, bonusIds, round, now).None? ==>
      forall f: nat :: CascadeAsWritten(w.totalEarned, w.level, f) == None
    decreases if w.level < 9 then 9 - w.level else 0
  {
    CascadeSettles(w, bonusIds, round, now);
    SettlesAsWritten(w.totalEarned, w.level, fuel);
  }

  /** The totalEarned and level the wallet cascade would settle on, worked out on those two numbers alone. */
  function SettleLevels(earned: real, level: int): Option<(real, int)>
    decreases if level < 9 then 9 - level else 0
  {
    if earned < (level * 100) as real then Some((earned, level))
    else if level >= 9 then None
    else if (level + 1) * 10 <= 0 then Some((earned, level + 1))
    else SettleLevels(earned + ((level + 1) * 10) as real, level + 1)
  }

  /** The wallet cascade settles where SettleLevels does, on the same totalEarned and level. */
  lemma {:induction false} CascadeSettles(w: Wallet, bonusIds: nat -> string, round: nat, now: int)
    ensures Cascade(w, bonusIds, round, now).None? <==> SettleLevels(w.totalEarned, w.level).None?
    ensures Cascade(w, bonusIds, round, now).Some? ==>
      SettleLevels(w.totalEarned, w.level)
        == Some((Cascade(w, bonusIds, round, now).value.wallet.totalEarned,
                 Cascade(w, bonusIds, round, now).value.wallet.level))
    decreases if w.level < 9 then 9 - w.level else 0
  {
    if DueForLevelUp(w) && w.level < 9 && (w.level + 1) * 10 > 0 {
      var c := Credit(Promote(w), BonusTx(Promote(w), bonusIds(round), now));
      CascadeStep(w, bonusIds, round, now);
      assert SettleLevels(w.totalEarned, w.level) == SettleLevels(c.totalEarned, c.level);
      CascadeSettles(c, bonusIds, round + 1, now);
    } else {
      CascadeStops(w, bonusIds, round, now);
    }
  }

  /** Where the wallet cascade takes no round with a bonus, it ends as SettleLevels does. */
  lemma CascadeStops(w: Wallet, bonusIds: nat -> string, round: nat, now: int)
    requires !(DueForLevelUp(w) && w.level < 9 && (w.level + 1) * 10 > 0)
    ensures Cascade(w, bonusIds, round, now).None? <==> SettleLevels(w.totalEarned, w.level).None?
    ensures Cascade(w, bonusIds, round, now).Some? ==>
      SettleLevels(w.totalEarned, w.level)
        == Some((Cascade(w, bonusIds, round, now).value.wallet.totalEarned,
                 Cascade(w, bonusIds, round, now).value.wallet.level))
  {
    if DueForLevelUp(w) && w.level < 9 {
      assert Cascade(w, bonusIds, round, now) == Some(Promotion(Promote(w), 0));
    }
  }

  /** Given MaxRounds rounds, the source's recursion settles where SettleLevels does; otherwise it never does. */
  lemma {:induction false} SettlesAsWritten(earned: real, level: int, fuel: nat)
    requires fuel >= MaxRounds(level)
    ensures SettleLevels(earned, level).Some? ==> CascadeAsWritten(earned, level, fuel) == SettleLevels(earned, level)
    ensures SettleLevels(earned, level).None? ==> forall f: nat :: CascadeAsWritten(earned, level, f) == None
    decreases if level < 9 then 9 - level else 0
  {
    if earned >= (level * 100) as real {
      if level >= 9 {
        forall f: nat ensures CascadeAsWritten(earned, level, f) == None {
          CascadeNeverSettles(earned, level, f);
        }
      } else if (level + 1) * 10 > 0 {
        var next := earned + ((level + 1) * 10) as real;
        SettlesAsWritten(next, level + 1, fuel - 1);
        if SettleLevels(earned, level).None? {
          forall f: nat ensures CascadeAsWritten(earned, level, f) == None {
            if f > 0 {
              AsWrittenStep(earned, level, f);
            }
          }
        }
      }
    }
  }

  /** One round of the wallet cascade, for a wallet due below level 9 with a positive bonus. */
  lemma CascadeStep(w: Wallet, bonusIds: nat -> string, round: nat, now: int)
    requires DueForLevelUp(w) && w.level < 9 && (w.level + 1) * 10 > 0
    ensures var c := Credit(Promote(w), BonusTx(Promote(w), bonusIds(round), now));
      c.level == w.level + 1 && c.totalEarned == w.totalEarned + ((w.level + 1) * 10) as real
      && (Cascade(c, bonusIds, round + 1, now).None? ==> Cascade(w, bonusIds, round, now).None?)
      && (Cascade(c, bonusIds, round + 1, now).Some? ==>
            Cascade(w, bonusIds, round, now).Some?
            && Cascade(w, bonusIds, round, now).value.wallet == Cascade(c, bonusIds, round + 1, now).value.wallet)
  {
  }

  /** One round of the source's recursion, for a level whose bonus is positive. */
  lemma AsWrittenStep(earned: real, level: int, fuel: nat)
    requires fuel > 0 && earned >= (level * 100) as real && (level + 1) * 10 > 0
    ensures CascadeAsWritten(earned, level, fuel)
      == CascadeAsWritten(earned + ((level + 1) * 10) as real, level + 1, fuel - 1)
  {
  }

  /** Where the source settles, the model's level-ups end on the source's totalEarned and level. */
  lemma LevelUpsAgreeWhereSourceSettles(w: Wallet, bonusIds: nat -> string, now: int, fuel: nat)
    requires CascadeAsWritten(w.totalEarned, w.level, fuel).Some?
    ensures CascadeAsWritten(w.totalEarned, w.level, fuel)
      == Some((LevelUps(w, bonusIds, now).wallet.totalEarned, LevelUps(w, bonusIds, now).wallet.level))
  {
    var m := if fuel >= MaxRounds(w.level) then fuel else MaxRounds(w.level);
    CascadeIsAsWritten(w, bonusIds, 0, now, m);
    CascadeIsAsWritten(w, bonusIds, 0, now, fuel + MaxRounds(w.level));
    AsWrittenFuelMore(w.totalEarned, w.level, fuel, m);
  }

  /** More rounds do not change a recursion that has settled. */
  lemma {:induction false} AsWrittenFuelMore(earned: real, level: int, fuel: nat, more: nat)
    requires fuel <= more && CascadeAsWritten(earned, level, fuel).Some?
    ensures CascadeAsWritten(earned, level, more) == CascadeAsWritten(earned, level, fuel)
    decreases fuel
  {
    if earned >= (level * 100) as real && (level + 1) * 10 > 0 {
      AsWrittenFuelMore(earned + ((level + 1) * 10) as real, level + 1, fuel - 1, more - 1);
    }
  }

  /** Where the source never settles, the model performs exactly one level-up, with one bonus. */
  lemma LevelUpsOnceWhereSourceDiverges(w: Wallet, bonusIds: nat -> string, now: int)
    requires forall f: nat :: CascadeAsWritten(w.totalEarned, w.level, f) == None
    ensures LevelUps(w, bonusIds, now).wallet.level == w.level + 1
    ensures LevelUps(w, bonusIds, now).bonuses == 1
  {
    CascadeIsAsWritten(w, bonusIds, 0, now, MaxRounds(w.level));
    assert CascadeAsWritten(w.totalEarned, w.level, MaxRounds(w.level)) == None;
  }

  /**
   * A new wallet (50 earned, level 1) earning 200 levels up three times, to
   * level 4, with bonuses of 20, 30 and 40: balance 340 and three bonuses.
   */
  lemma NewWalletEarningTwoHundred(w: Wallet, bonusIds: nat -> string, now: int)
    requires w.level == 1 && w.totalEarned == 250.0 && w.balance == 250.0
    ensures LevelUps(w, bonusIds, now).wallet.level == 4
    ensures LevelUps(w, bonusIds, now).wallet.balance == 340.0
    ensures LevelUps(w, bonusIds, now).bonuses == 3
  {
    var p1 := Promote(w);
    var c1 := Credit(p1, BonusTx(p1, bonusIds(0), now));
    var p2 := Promote(c1);
    var c2 := Credit(p2, BonusTx(p2, bonusIds(1), now));
    var p3 := Promote(c2);
    var c3 := Credit(p3, BonusTx(p3, bonusIds(2), now));
    assert c3.level == 4 && c3.totalEarned == 340.0 && c3.balance == 340.0;
    assert Cascade(c3, bonusIds, 3, now) == Some(Promotion(c3, 0));
    assert Cascade(c2, bonusIds, 2, now) == Some(Promotion(c3, 1));
    assert Cascade(c1, bonusIds, 1, now) == Some(Promotion(c3, 2));
    assert Cascade(w, bonusIds, 0, now) == Some(Promotion(c3, 3));
  }

  // ---------------------------------------------------------- rate limiting

  /** The timestamps still inside the 60-second window at `now`. */
  function Recent(stamps: seq<int>, now: int): (r: seq<int>)
    ensures |r| <= |stamps|
    ensures forall t :: t in r <==> t in stamps && now - t < RateLimitWindow
  {
    if stamps == [] then []
    else if now - stamps[0] < RateLimitWindow then [stamps[0]] + Recent(stamps[1..], now)
    else Recent(stamps[1..], now)
  }

  function StampsOf(limits: map<string, seq<int>>, userId: string): seq<int> {
    if userId in limits then limits[userId] else []
  }

  predicate LimitedAt(limits: map<string, seq<int>>, userId: string, now: int) {
    |Recent(StampsOf(limits, userId), now)| >= MaxTransactionsPerMinute
  }

  /** Stamping after a prune: the new list replaces the pruned one. */
  lemma StampOverride(limits: map<string, seq<int>>, userId: string, stamps: seq<int>, now: int)
    ensures var m := limits[userId := stamps];
      m[userId := StampsOf(m, userId) + [now]] == limits[userId := stamps + [now]]
  {
  }

  /** Stamping once more after `n` nested stamps leaves `n + 1` of them. */
  lemma StampsAfterEarn(limits: map<string, seq<int>>, userId: string, pruned: seq<int>, n: nat, now: int)
    ensures var m := limits[userId := pruned + Repeat(now, n)];
      m[userId := StampsOf(m, userId) + [now]] == limits[userId := pruned + Repeat(now, n + 1)]
  {
    StampOverride(limits, userId, pruned + Repeat(now, n), now);
    assert pruned + Repeat(now, n) + [now] == pruned + Repeat(now, n + 1);
  }

  /** Pruning twice at the same instant is pruning once. */
  lemma {:induction false} RecentIdempotent(stamps: seq<int>, now: int)
    ensures Recent(Recent(stamps, now), now) == Recent(stamps, now)
  {
    if stamps != [] {
      RecentIdempotent(stamps[1..], now);
    }
  }

  datatype RateInfo = RateInfo(
    recentTransactions: nat,
    maxTransactions: int,
    rateLimitWindow: int,
    isLimited: bool,
    remainingTransactions: int)

  datatype LeaderboardEntry = LeaderboardEntry(userId: string, balance: real, level: int, totalEarned: real)

  datatype BalanceView =
    | NewWalletView(wallet: Wallet)
    | Summary(userId: string, balance: real, totalEarned: real, lastUpdated: int)

  function WalletsInOrder(order: seq<string>, wallets: map<string, Wallet>): (r: seq<Wallet>)
    requires forall k :: k in order ==> k in wallets
    ensures |r| == |order|
    ensures forall i :: 0 <= i < |order| ==> r[i] == wallets[order[i]]
  {
    if order == [] then [] else [wallets[order[0]]] + WalletsInOrder(order[1..], wallets)
  }

  function Balance(w: Wallet): real {
    w.balance
  }

  /** The wallets after a successful transfer: debit the sender, then credit and level up the receiver. */
  function Transferred(wallets: map<string, Wallet>, from: string, to: string, amount: real,
                       description: string, now: int, transferId: string, bonusIds: nat -> string): (r: map<string, Wallet>)
    requires from in wallets && to in wallets
    ensures r.Keys == wallets.Keys
    ensures forall k :: k in r ==> r[k].userId == wallets[k].userId
    ensures forall k :: k in r && k != from && k != to ==> r[k] == wallets[k]
  {
    var debitTx := Transaction(transferId + "_debit", from, amount, Transfer,
                               "Transfer to " + to + ": " + description, now);
    var creditTx := Transaction(transferId + "_credit", to, amount, Earn,
                                "Transfer from " + from + ": " + description, now);
    var afterDebit := wallets[from := Debit(wallets[from], debitTx)];
    afterDebit[to := LevelUps(Credit(afterDebit[to], creditTx), bonusIds, now).wallet]
  }

  /** The bonuses the receiver's level-ups credit in a transfer. */
  function TransferBonuses(wallets: map<string, Wallet>, from: string, to: string, amount: real,
                           description: string, now: int, transferId: string, bonusIds: nat -> string): nat
    requires from in wallets && to in wallets
  {
    var debitTx := Transaction(transferId + "_debit", from, amount, Transfer,
                               "Transfer to " + to + ": " + description, now);
    var creditTx := Transaction(transferId + "_credit", to, amount, Earn,
                                "Transfer from " + from + ": " + description, now);
    LevelUps(Credit(wallets[from := Debit(wallets[from], debitTx)][to], creditTx), bonusIds, now).bonuses
  }

  /**
   * A transfer between two wallets moves the amount between them; the total
   * grows by exactly the bonuses of the receiver's level-ups, and by nothing
   * when none is due.
   */
  lemma {:induction false} TransferConserves(order: seq<string>, wallets: map<string, Wallet>, from: string, to: string,
                                             amount: real, description: string, now: int, transferId: string, bonusIds: nat -> string)
    requires forall x :: x in order ==> x in wallets
    requires forall x :: x in wallets ==> x in order
    requires NoDuplicates(order) && from in wallets && to in wallets && from != to
    ensures var r := Transferred(wallets, from, to, amount, description, now, transferId, bonusIds);
      forall x :: x in order ==> x in r
    ensures var r := Transferred(wallets, from, to, amount, description, now, transferId, bonusIds);
      SumOver(order, r, Balance) == SumOver(order, wallets, Balance) + (r[to].totalEarned - wallets[to].totalEarned - amount)
    ensures var r := Transferred(wallets, from, to, amount, description, now, transferId, bonusIds);
      r[from].balance == wallets[from].balance - amount
      && r[to].balance - wallets[to].balance == r[to].totalEarned - wallets[to].totalEarned
    ensures var r := Transferred(wallets, from, to, amount, description, now, transferId, bonusIds);
      r[to].totalEarned - wallets[to].totalEarned - amount >= 0.0
      && (TransferBonuses(wallets, from, to, amount, description, now, transferId, bonusIds) == 0
          ==> SumOver(order, r, Balance) == SumOver(order, wallets, Balance))
  {
    var debitTx := Transaction(transferId + "_debit", from, amount, Transfer,
                               "Transfer to " + to + ": " + description, now);
    var creditTx := Transaction(transferId + "_credit", to, amount, Earn,
                                "Transfer from " + from + ": " + description, now);
    var d := Debit(wallets[from], debitTx);
    var afterDebit := wallets[from := d];
    SumOverUpdate(order, wallets, from, d, Balance);
    var c := LevelUps(Credit(afterDebit[to], creditTx), bonusIds, now);
    SumOverUpdate(order, afterDebit, to, c.wallet, Balance);
  }

  /** `n` stamps of the instant `now`. */
  function Repeat(now: int, n: nat): (r: seq<int>)
    ensures |r| == n && forall t :: t in r ==> t == now
  {
    if n == 0 then [] else Repeat(now, n - 1) + [now]
  }

  /**
   * The rate-limit entries a transfer leaves: both users pruned and stamped
   * once, the receiver once more for each nested earn of a bonus.
   */
  lemma TransferStamps(before: map<string, seq<int>>, checked: map<string, seq<int>>, after: map<string, seq<int>>,
                       from: string, to: string, now: int, bonuses: nat)
    requires from != to
    requires checked == before[from := Recent(StampsOf(before, from), now)]
                             [to := Recent(StampsOf(before[from := Recent(StampsOf(before, from), now)], to), now)]
    requires var nested := checked[to := StampsOf(checked, to) + Repeat(now, bonuses)];
             var stamped := nested[from := StampsOf(nested, from) + [now]];
             after == stamped[to := StampsOf(stamped, to) + [now]]
    ensures after == before[from := Recent(StampsOf(before, from), now) + [now]]
                           [to := Recent(StampsOf(before, to), now) + Repeat(now, bonuses + 1)]
  {
    var pf := Recent(StampsOf(before, from), now);
    var pt := Recent(StampsOf(before, to), now);
    var ptBonus := pt + Repeat(now, bonuses);
    assert checked == before[from := pf][to := pt] by {
      assert StampsOf(before[from := pf], to) == StampsOf(before, to);
    }
    var nested := checked[to := StampsOf(checked, to) + Repeat(now, bonuses)];
    assert nested == before[from := pf][to := ptBonus] by {
      UpdateTwice(before[from := pf], to, pt, ptBonus);
    }
    var stamped := nested[from := StampsOf(nested, from) + [now]];
    assert stamped == before[from := pf + [now]][to := ptBonus] by {
      assert StampsOf(nested, from) == pf;
      UpdateSwap(before[from := pf], to, from, ptBonus, pf + [now]);
      UpdateTwice(before, from, pf, pf + [now]);
    }
    assert after == before[from := pf + [now]][to := ptBonus + [now]] by {
      UpdateTwice(before[from := pf + [now]], to, ptBonus, ptBonus + [now]);
    }
    assert ptBonus + [now] == pt + Repeat(now, bonuses + 1);
  }

  /**
   * The rate-limit entry a transfer to oneself leaves: the user is pruned
   * twice (the second prune changes nothing), then stamped once for each
   * nested earn of a bonus and twice more, as sender and as receiver.
   */
  lemma SelfTransferStamps(before: map<string, seq<int>>, checked: map<string, seq<int>>, after: map<string, seq<int>>,
                           user: string, now: int, bonuses: nat)
    requires checked == before[user := Recent(StampsOf(before, user), now)]
                             [user := Recent(StampsOf(before[user := Recent(StampsOf(before, user), now)], user), now)]
    requires var nested := checked[user := StampsOf(checked, user) + Repeat(now, bonuses)];
             var stamped := nested[user := StampsOf(nested, user) + [now]];
             after == stamped[user := StampsOf(stamped, user) + [now]]
    ensures after == before[user := Recent(StampsOf(before, user), now) + Repeat(now, bonuses + 2)]
  {
    var pruned := Recent(StampsOf(before, user), now);
    var nestedStamps := pruned + Repeat(now, bonuses);
    assert checked == before[user := pruned] by {
      assert StampsOf(before[user := pruned], user) == pruned;
      RecentIdempotent(StampsOf(before, user), now);
      UpdateTwice(before, user, pruned, pruned);
    }
    var nested := checked[user := StampsOf(checked, user) + Repeat(now, bonuses)];
    assert nested == before[user := nestedStamps] by {
      UpdateTwice(before, user, pruned, nestedStamps);
    }
    var stamped := nested[user := StampsOf(nested, user) + [now]];
    assert stamped == before[user := nestedStamps + [now]] by {
      UpdateTwice(before, user, nestedStamps, nestedStamps + [now]);
    }
    assert after == before[user := nestedStamps + [now] + [now]] by {
      UpdateTwice(before, user, nestedStamps + [now], nestedStamps + [now] + [now]);
    }
    assert Repeat(now, bonuses + 1) == Repeat(now, bonuses) + [now];
    assert Repeat(now, bonuses + 2) == Repeat(now, bonuses + 1) + [now];
    assert nestedStamps + [now] + [now] == pruned + Repeat(now, bonuses + 2);
  }

  lemma UpdateTwice(m: map<string, seq<int>>, k: string, v1: seq<int>, v2: seq<int>)
    ensures m[k := v1][k := v2] == m[k := v2]
  {
  }

  lemma UpdateSwap(m: map<string, seq<int>>, a: string, b: string, va: seq<int>, vb: seq<int>)
    requires a != b
    ensures m[a := va][b := vb] == m[b := vb][a := va]
  {
  }

  class Manager {
    var wallets: map<string, Wallet>
    /** The keys of `wallets` in insertion order. */
    var order: seq<string>
    var rateLimits: map<string, seq<int>>

    ghost predicate Valid()
      reads this
    {
      NoDuplicates(order)
      && (forall k :: k in order ==> k in wallets)
      && (forall k :: k in wallets ==> k in order)
      && (forall k :: k in wallets ==> wallets[k].userId == k)
    }

    /** Loading persisted wallets is not modelled: the ledger starts empty. */
    constructor()
      ensures Valid() && wallets == map[] && order == [] && rateLimits == map[]
    {
      wallets := map[];
      order := [];
      rateLimits := map[];
    }

    /** `isRateLimited`: prunes the user's timestamps to the window and stores them, even when empty. */
    method IsRateLimited(userId: string, now: int) returns (limited: bool)
      modifies this
      ensures limited <==> LimitedAt(old(rateLimits), userId, now)
      ensures rateLimits == old(rateLimits)[userId := Recent(StampsOf(old(rateLimits), userId), now)]
      ensures wallets == old(wallets) && order == old(order)
    {
      var recent := Recent(StampsOf(rateLimits, userId), now);
      rateLimits := rateLimits[userId := recent];
      limited := |recent| >= MaxTransactionsPerMinute;
    }

    method AddTransactionTimestamp(userId: string, now: int)
      modifies this
      ensures rateLimits == old(rateLimits)[userId := StampsOf(old(rateLimits), userId) + [now]]
      ensures wallets == old(wallets) && order == old(order)
    {
      rateLimits := rateLimits[userId := StampsOf(rateLimits, userId) + [now]];
    }

    /** `createWallet`: returns the existing wallet unchanged, or stores a new one. */
    method CreateWallet(userId: string, txId: string, now: int) returns (w: Wallet)
      requires Valid()
      modifies this
      ensures Valid() && rateLimits == old(rateLimits)
      ensures userId in old(wallets) ==> w == old(wallets)[userId] && wallets == old(wallets) && order == old(order)
      ensures userId !in old(wallets) ==>
        (w == NewWallet(userId, txId, now) && wallets == old(wallets)[userId := w] && order == old(order) + [userId])
    {
      if userId in wallets {
        return wallets[userId];
      }
      w := NewWallet(userId, txId, now);
      wallets := wallets[userId := w];
      order := order + [userId];
    }

    function GetWallet(userId: string): (r: Option<Wallet>)
      reads this
      ensures r.Some? <==> userId in wallets
      ensures r.Some? ==> r.value == wallets[userId]
    {
      if userId in wallets then Some(wallets[userId]) else None
    }

    /**
     * `earnCoins`. Each level-up bonus is a nested earn: it passes the same rate
     * check (nothing has been stamped yet) and stamps the limiter when it returns.
     */
    method EarnCoins(userId: string, amount: real, description: string, now: int, txId: string,
                     bonusIds: nat -> string) returns (ok: bool)
      requires Valid()
      modifies this
      ensures Valid()
      ensures ok <==> amount > 0.0 && !LimitedAt(old(rateLimits), userId, now) && userId in old(wallets)
      ensures !ok ==> wallets == old(wallets) && order == old(order)
      ensures amount <= 0.0 ==> rateLimits == old(rateLimits)
      ensures amount > 0.0 && !ok ==>
        rateLimits == old(rateLimits)[userId := Recent(StampsOf(old(rateLimits), userId), now)]
      ensures ok ==>
        (order == old(order)
         && wallets == old(wallets)[userId := Earned(old(wallets)[userId], userId, amount, description, now, txId, bonusIds)])
      ensures ok ==> rateLimits == old(rateLimits)[userId := Recent(StampsOf(old(rateLimits), userId), now)
        + Repeat(now, EarnBonuses(old(wallets)[userId], userId, amount, description, now, txId, bonusIds) + 1)]
    {
      if amount <= 0.0 {
        return false;
      }
      var limited := IsRateLimited(userId, now);
      if limited {
        return false;
      }
      if userId !in wallets {
        return false;
      }
      var w := wallets[userId];
      var bonuses := EarnBonuses(w, userId, amount, description, now, txId, bonusIds);
      wallets := wallets[userId := Earned(w, userId, amount, description, now, txId, bonusIds)];
      ghost var pruned := Recent(StampsOf(old(rateLimits), userId), now);
      // the nested earns prune again, which changes nothing at the same instant
      // (RecentIdempotent), and each stamps its own success
      rateLimits := rateLimits[userId := StampsOf(rateLimits, userId) + Repeat(now, bonuses)];
      assert rateLimits == old(rateLimits)[userId := pruned + Repeat(now, bonuses)];
      AddTransactionTimestamp(userId, now);
      StampsAfterEarn(old(rateLimits), userId, pruned, bonuses, now);
      ok := true;
    }

    /** `spendCoins`: refuses a missing wallet or a balance below the amount. */
    method SpendCoins(userId: string, amount: real, description: string, now: int, txId: string)
        returns (ok: bool)
      requires Valid()
      modifies this
      ensures Valid()
      ensures ok <==> amount > 0.0 && !LimitedAt(old(rateLimits), userId, now) && userId in old(wallets)
                      && old(wallets)[userId].balance >= amount
      ensures !ok ==> wallets == old(wallets) && order == old(order)
      ensures amount <= 0.0 ==> rateLimits == old(rateLimits)
      ensures amount > 0.0 && !ok ==>
        rateLimits == old(rateLimits)[userId := Recent(StampsOf(old(rateLimits), userId), now)]
      ensures ok ==>
        (order == old(order)
         && wallets == old(wallets)[userId := Debit(old(wallets)[userId], Transaction(txId, userId, amount, Spend, description, now))])
      ensures ok ==> wallets[userId].balance >= 0.0
      ensures ok ==> rateLimits == old(rateLimits)[userId := Recent(StampsOf(old(rateLimits), userId), now) + [now]]
    {
      if amount <= 0.0 {
        return false;
      }
      var limited := IsRateLimited(userId, now);
      if limited {
        return false;
      }
      if userId !in wallets || wallets[userId].balance < amount {
        return false;
      }
      wallets := wallets[userId := Debit(wallets[userId], Transaction(txId, userId, amount, Spend, description, now))];
      AddTransactionTimestamp(userId, now);
      ok := true;
    }

    /**
     * `transferCoins`. The sender's rate limit is checked first and the
     * receiver's only when the sender passes. The source's "ensure recipient
     * has a wallet" step cannot fire, since a missing receiver was refused.
     */
    method TransferCoins(from: string, to: string, amount: real, description: string, now: int,
                         transferId: string, bonusIds: nat -> string) returns (ok: bool)
      requires Valid()
      modifies this
      ensures Valid()
      ensures ok <==>
        (amount > 0.0 && !LimitedAt(old(rateLimits), from, now)
         && !LimitedAt(old(rateLimits)[from := Recent(StampsOf(old(rateLimits), from), now)], to, now)
         && from in old(wallets) && to in old(wallets) && old(wallets)[from].balance >= amount)
      ensures !ok ==> wallets == old(wallets) && order == old(order)
      ensures ok ==>
        (order == old(order)
         && wallets == Transferred(old(wallets), from, to, amount, description, now, transferId, bonusIds))
      ensures ok && from != to ==>
        (wallets[from].balance == old(wallets)[from].balance - amount
         && wallets[to].balance - old(wallets)[to].balance == wallets[to].totalEarned - old(wallets)[to].totalEarned)
      ensures ok && from != to ==>
        GetTotalSupply() == old(GetTotalSupply()) + (wallets[to].totalEarned - old(wallets)[to].totalEarned - amount)
      ensures ok && from == to ==>
        rateLimits == old(rateLimits)[from := Recent(StampsOf(old(rateLimits), from), now)
                                              + Repeat(now, TransferBonuses(old(wallets), from, to, amount, description, now,
                                                                            transferId, bonusIds) + 2)]
      ensures ok && from != to ==>
        rateLimits == old(rateLimits)[from := Recent(StampsOf(old(rateLimits), from), now) + [now]]
                                     [to := Recent(StampsOf(old(rateLimits), to), now)
                                            + Repeat(now, TransferBonuses(old(wallets), from, to, amount, description, now,
                                                                          transferId, bonusIds) + 1)]
    {
      if amount <= 0.0 {
        return false;
      }
      var fromLimited := IsRateLimited(from, now);
      if fromLimited {
        return false;
      }
      var toLimited := IsRateLimited(to, now);
      if toLimited {
        return false;
      }
      if from !in wallets || to !in wallets {
        return false;
      }
      if wallets[from].balance < amount {
        return false;
      }
      var debitTx := Transaction(transferId + "_debit", from, amount, Transfer,
                                 "Transfer to " + to + ": " + description, now);
      var creditTx := Transaction(transferId + "_credit", to, amount, Earn,
                                  "Transfer from " + from + ": " + description, now);
      var bonuses := TransferBonuses(wallets, from, to, amount, description, now, transferId, bonusIds);
      ghost var before := wallets;
      wallets := Transferred(wallets, from, to, amount, description, now, transferId, bonusIds);
      if from != to {
        TransferConserves(order, before, from, to, amount, description, now, transferId, bonusIds);
      }
      ghost var limitsBefore := rateLimits;
      // each bonus is a nested earn for the receiver, stamped when it returns
      rateLimits := rateLimits[to := StampsOf(rateLimits, to) + Repeat(now, bonuses)];
      AddTransactionTimestamp(from, now);
      AddTransactionTimestamp(to, now);
      if from != to {
        TransferStamps(old(rateLimits), limitsBefore, rateLimits, from, to, now, bonuses);
      } else {
        SelfTransferStamps(old(rateLimits), limitsBefore, rateLimits, from, now, bonuses);
      }
      ok := true;
    }

    /** `getTransactionHistory`: sorts the wallet's own list newest first, in place, and returns up to `limit`. */
    method GetTransactionHistory(userId: string, limit: int) returns (history: seq<Transaction>)
      requires Valid()
      modifies this
      ensures Valid() && order == old(order) && rateLimits == old(rateLimits)
      ensures userId !in old(wallets) ==> history == [] && wallets == old(wallets)
      ensures userId in old(wallets) ==>
        var sorted := SortDesc(old(wallets)[userId].transactions, (t: Transaction) => t.timestamp as real);
        wallets == old(wallets)[userId := old(wallets)[userId].(transactions := sorted)]
        && history == Slice(sorted, 0, limit)
      ensures SortedDesc(history, (t: Transaction) => t.timestamp as real)
    {
      if userId !in wallets {
        return [];
      }
      var w := wallets[userId];
      var sorted := SortDesc(w.transactions, (t: Transaction) => t.timestamp as real);
      wallets := wallets[userId := w.(transactions := sorted)];
      history := Slice(sorted, 0, limit);
      SliceKeepsOrder(sorted, 0, limit, (t: Transaction) => t.timestamp as real);
    }

    /**
     * `getLeaderboard`: the richest `limit` wallets, richest first, each listed
     * once; no wallet left out is richer than a listed one.
     */
    function GetLeaderboard(limit: int): (r: seq<LeaderboardEntry>)
      requires Valid()
      reads this
      ensures SortedDesc(r, (e: LeaderboardEntry) => e.balance)
      ensures forall i, j :: 0 <= i < j < |r| ==> r[i].userId != r[j].userId
      ensures forall k :: k in wallets && !Listed(r, k) ==> forall e :: e in r ==> wallets[k].balance <= e.balance
      ensures |r| <= |order|
      ensures limit >= 0 ==> |r| == if limit < |order| then limit else |order|
      ensures forall e :: e in r ==>
        (e.userId in wallets && e.balance == wallets[e.userId].balance
         && e.level == wallets[e.userId].level && e.totalEarned == wallets[e.userId].totalEarned)
    {
      var ranked := SortDesc(WalletsInOrder(order, wallets), Balance);
      var top := Slice(ranked, 0, limit);
      SliceKeepsOrder(ranked, 0, limit, Balance);
      SliceFromStart(ranked, limit);
      RankedMembers(order, wallets, ranked);
      EntriesOfStored(top, wallets);
      LeaderboardTop(order, wallets, limit);
      Entries(top)
    }

    /** `validateTransaction`: the user's wallet holds a transaction with that id. */
    predicate ValidateTransaction(transactionId: string, userId: string)
      reads this
    {
      userId in wallets && exists t :: t in wallets[userId].transactions && t.id == transactionId
    }

    /** `getTotalSupply`: the sum of all balances. */
    function GetTotalSupply(): real
      requires Valid()
      reads this
    {
      SumOver(order, wallets, Balance)
    }

    function GetActiveUsersCount(): (n: nat)
      requires Valid()
      reads this
      ensures n == |order|
    {
      DistinctCount(order);
      assert wallets.Keys == set x | x in order;
      |wallets|
    }

    /** `importWalletData` after parsing: None is a parse failure. The wallet is taken as given. */
    method ImportWalletData(userId: string, parsed: Option<Wallet>) returns (ok: bool)
      requires Valid()
      modifies this
      ensures Valid() && rateLimits == old(rateLimits)
      ensures ok <==> parsed.Some? && parsed.value.userId == userId
      ensures !ok ==> wallets == old(wallets) && order == old(order)
      ensures ok ==>
        (wallets == old(wallets)[userId := parsed.value]
         && order == if userId in old(wallets) then old(order) else old(order) + [userId])
    {
      if parsed.None? || parsed.value.userId != userId {
        return false;
      }
      if userId !in wallets {
        order := order + [userId];
      }
      wallets := wallets[userId := parsed.value];
      ok := true;
    }

    /** `purchasePiCoins`: an earn described by the purchase; `amountText` is the amount as printed. */
    method PurchasePiCoins(userId: string, amount: real, amountText: string, paymentMethod: string, now: int,
                           txId: string, bonusIds: nat -> string) returns (ok: bool)
      requires Valid()
      modifies this
      ensures Valid()
      ensures ok <==> amount > 0.0 && !LimitedAt(old(rateLimits), userId, now) && userId in old(wallets)
      ensures ok ==> wallets == old(wallets)[userId := Earned(old(wallets)[userId], userId, amount,
        "Purchased " + amountText + " Pi Coins via " + paymentMethod, now, txId, bonusIds)]
    {
      ok := EarnCoins(userId, amount, "Purchased " + amountText + " Pi Coins via " + paymentMethod, now, txId, bonusIds);
    }

    /** `getBalance`: a missing user gets a new wallet, which is returned whole. */
    method GetBalance(userId: string, now: int, txId: string) returns (view: BalanceView)
      requires Valid()
      modifies this
      ensures Valid() && rateLimits == old(rateLimits)
      ensures userId in old(wallets) ==> wallets == old(wallets) && view == Summary(userId,
        old(wallets)[userId].balance, old(wallets)[userId].totalEarned, now)
      ensures userId !in old(wallets) ==>
        (view == NewWalletView(NewWallet(userId, txId, now))
         && wallets == old(wallets)[userId := NewWallet(userId, txId, now)])
    {
      if userId !in wallets {
        var w := CreateWallet(userId, txId, now);
        return NewWalletView(w);
      }
      var w := wallets[userId];
      view := Summary(w.userId, w.balance, w.totalEarned, now);
    }

    /** `resetWallet`: deletes an existing wallet. */
    method ResetWallet(userId: string) returns (ok: bool)
      requires Valid()
      modifies this
      ensures Valid() && rateLimits == old(rateLimits)
      ensures ok <==> userId in old(wallets)
      ensures wallets == old(wallets) - {userId}
      ensures forall k :: k in order <==> k in old(order) && k != userId
    {
      if userId !in wallets {
        return false;
      }
      wallets := wallets - {userId};
      order := Remove(order, userId);
      ok := true;
    }

    /** `getTransactionRateInfo`: counts without pruning. */
    function GetTransactionRateInfo(userId: string, now: int): (info: RateInfo)
      reads this
      ensures info.isLimited <==> LimitedAt(rateLimits, userId, now)
      ensures info.remainingTransactions >= 0
      ensures !info.isLimited ==> info.recentTransactions + info.remainingTransactions == MaxTransactionsPerMinute
      ensures info.isLimited ==> info.remainingTransactions == 0
    {
      var recent := |Recent(StampsOf(rateLimits, userId), now)|;
      RateInfo(recent, MaxTransactionsPerMinute, RateLimitWindow, recent >= MaxTransactionsPerMinute,
               if MaxTransactionsPerMinute - recent > 0 then MaxTransactionsPerMinute - recent else 0)
    }

    /** `addTransaction`: earn and spend are dispatched; a transfer is refused. */
    method AddTransaction(userId: string, amount: real, txType: TxType, description: string, now: int,
                          txId: string, bonusIds: nat -> string) returns (ok: bool)
      requires Valid()
      modifies this
      ensures Valid()
      ensures txType == Transfer ==> !ok && wallets == old(wallets) && rateLimits == old(rateLimits)
      ensures txType == Earn ==> (ok <==> amount > 0.0 && !LimitedAt(old(rateLimits), userId, now) && userId in old(wallets))
      ensures txType == Spend ==>
        (ok <==> (amount > 0.0 && !LimitedAt(old(rateLimits), userId, now)
                  && userId in old(wallets) && old(wallets)[userId].balance >= amount))
    {
      if txType == Earn {
        ok := EarnCoins(userId, amount, description, now, txId, bonusIds);
      } else if txType == Spend {
        ok := SpendCoins(userId, amount, description, now, txId);
      } else {
        ok := false;
      }
    }
  }

  /** A reordering of the wallets in key order holds only stored wallets, each under its own key. */
  lemma RankedMembers(order: seq<string>, wallets: map<string, Wallet>, ranked: seq<Wallet>)
    requires forall k :: k in order ==> k in wallets
    requires forall k :: k in wallets ==> wallets[k].userId == k
    requires multiset(ranked) == multiset(WalletsInOrder(order, wallets))
    ensures forall w :: w in ranked ==> w.userId in wallets && wallets[w.userId] == w
  {
    forall w | w in ranked
      ensures w.userId in wallets && wallets[w.userId] == w
    {
      assert w in multiset(ranked);
      var listed := WalletsInOrder(order, wallets);
      assert w in multiset(listed);
      var i :| 0 <= i < |listed| && listed[i] == w;
    }
  }

  function Entries(ws: seq<Wallet>): (r: seq<LeaderboardEntry>)
    ensures |r| == |ws|
    ensures forall i :: 0 <= i < |ws| ==>
      r[i] == LeaderboardEntry(ws[i].userId, ws[i].balance, ws[i].level, ws[i].totalEarned)
  {
    if ws == [] then [] else [LeaderboardEntry(ws[0].userId, ws[0].balance, ws[0].level, ws[0].totalEarned)] + Entries(ws[1..])
  }

  /** Entries of stored wallets, ranked by balance, stay ranked and describe the stored wallets. */
  lemma EntriesOfStored(ws: seq<Wallet>, wallets: map<string, Wallet>)
    requires SortedDesc(ws, Balance)
    requires forall w :: w in ws ==> w.userId in wallets && wallets[w.userId] == w
    ensures SortedDesc(Entries(ws), (e: LeaderboardEntry) => e.balance)
    ensures forall e :: e in Entries(ws) ==>
      (e.userId in wallets && e.balance == wallets[e.userId].balance
       && e.level == wallets[e.userId].level && e.totalEarned == wallets[e.userId].totalEarned)
  {
    var r := Entries(ws);
    forall e | e in r
      ensures e.userId in wallets && e.balance == wallets[e.userId].balance
              && e.level == wallets[e.userId].level && e.totalEarned == wallets[e.userId].totalEarned
    {
      var i :| 0 <= i < |r| && r[i] == e;
      assert ws[i] in ws;
    }
  }

  /** Some entry of the leaderboard is the user's. */
  predicate Listed(r: seq<LeaderboardEntry>, k: string) {
    exists e :: e in r && e.userId == k
  }

  /** The leaderboard lists distinct wallets, and none it leaves out is richer than one it lists. */
  lemma LeaderboardTop(order: seq<string>, wallets: map<string, Wallet>, limit: int)
    requires NoDuplicates(order)
    requires forall k :: k in order ==> k in wallets
    requires forall k :: k in wallets ==> k in order
    requires forall k :: k in wallets ==> wallets[k].userId == k
    ensures var r := Entries(Slice(SortDesc(WalletsInOrder(order, wallets), Balance), 0, limit));
      (forall i, j :: 0 <= i < j < |r| ==> r[i].userId != r[j].userId)
      && (forall k :: k in wallets && !Listed(r, k) ==> forall e :: e in r ==> wallets[k].balance <= e.balance)
  {
    var all := WalletsInOrder(order, wallets);
    var top := Slice(SortDesc(all, Balance), 0, limit);
    StoredListed(order, wallets);
    TopOfSorted(all, Balance, limit);
    TopEntries(top, all, wallets);
  }

  /** Entries of the first wallets of a ranking of the stored ones. */
  lemma TopEntries(top: seq<Wallet>, all: seq<Wallet>, wallets: map<string, Wallet>)
    requires NoDuplicates(all) ==> NoDuplicates(top)
    requires NoDuplicates(all) && multiset(top) <= multiset(all)
    requires forall x :: x in all ==> x.userId in wallets && wallets[x.userId] == x
    requires forall k :: k in wallets ==> wallets[k] in all && wallets[k].userId == k
    requires forall x, y :: (x in all && y in top && multiset(top)[x] < multiset(all)[x]) ==> Balance(x) <= Balance(y)
    ensures var r := Entries(top);
      (forall i, j :: 0 <= i < j < |r| ==> r[i].userId != r[j].userId)
      && (forall k :: k in wallets && !Listed(r, k) ==> forall e :: e in r ==> wallets[k].balance <= e.balance)
  {
    SubMembers(top, all);
    StoredDistinctIds(top, wallets);
    forall k | k in wallets && !Listed(Entries(top), k)
      ensures forall e :: e in Entries(top) ==> wallets[k].balance <= e.balance
    {
      OmittedBelow(top, all, wallets[k]);
    }
  }

  /** The listed wallets are distinct, each stored under its own key, and every stored one is listed. */
  lemma StoredListed(order: seq<string>, wallets: map<string, Wallet>)
    requires forall k :: k in order ==> k in wallets
    requires forall k :: k in wallets ==> k in order
    requires forall k :: k in wallets ==> wallets[k].userId == k
    requires NoDuplicates(order)
    ensures NoDuplicates(WalletsInOrder(order, wallets))
    ensures forall x :: x in WalletsInOrder(order, wallets) ==> x.userId in wallets && wallets[x.userId] == x
    ensures forall k :: k in wallets ==> wallets[k] in WalletsInOrder(order, wallets)
  {
    var all := WalletsInOrder(order, wallets);
    forall i, j | 0 <= i < j < |all| ensures all[i] != all[j] {
      assert all[i] == wallets[order[i]] && all[j] == wallets[order[j]];
      assert order[i] in wallets && order[j] in wallets && order[i] != order[j];
      assert all[i].userId == order[i] && all[j].userId == order[j];
    }
    forall x | x in all ensures x.userId in wallets && wallets[x.userId] == x {
      var i :| 0 <= i < |all| && all[i] == x;
      assert x == wallets[order[i]] && order[i] in wallets;
      assert x.userId == order[i];
    }
    forall k | k in wallets ensures wallets[k] in all {
      var n :| 0 <= n < |order| && order[n] == k;
      assert all[n] == wallets[k];
    }
  }

  /** Entries of distinct stored wallets name distinct users. */
  lemma StoredDistinctIds(top: seq<Wallet>, wallets: map<string, Wallet>)
    requires NoDuplicates(top)
    requires forall x :: x in top ==> x.userId in wallets && wallets[x.userId] == x
    ensures forall i, j :: 0 <= i < j < |Entries(top)| ==> Entries(top)[i].userId != Entries(top)[j].userId
  {
    var r := Entries(top);
    forall i, j | 0 <= i < j < |r| ensures r[i].userId != r[j].userId {
      assert r[i].userId == top[i].userId && r[j].userId == top[j].userId;
      assert top[i] in top && top[j] in top;
      assert top[i] != top[j];
      assert wallets[top[i].userId] == top[i] && wallets[top[j].userId] == top[j];
    }
  }

  /** A wallet whose user the entries do not name is not among the listed wallets. */
  lemma NotListedNotTop(top: seq<Wallet>, w: Wallet)
    requires !Listed(Entries(top), w.userId)
    ensures w !in top
  {
  }

  lemma SubMembers(top: seq<Wallet>, all: seq<Wallet>)
    requires multiset(top) <= multiset(all)
    ensures forall x :: x in top ==> x in all
  {
    forall x | x in top ensures x in all {
      assert x in multiset(top);
    }
  }

  /** A wallet of the ranking that is not among the first ranks no higher than any of them. */
  lemma OmittedBelow(top: seq<Wallet>, all: seq<Wallet>, w: Wallet)
    requires w in all && !Listed(Entries(top), w.userId)
    requires forall x, y :: (x in all && y in top && multiset(top)[x] < multiset(all)[x]) ==> Balance(x) <= Balance(y)
    ensures forall e :: e in Entries(top) ==> w.balance <= e.balance
  {
    NotListedNotTop(top, w);
    assert multiset(top)[w] == 0 && w in multiset(all);
    assert forall y :: y in top ==> Balance(w) <= Balance(y);
    EntriesBounded(top, w.balance);
  }

  /** A bound below every listed wallet's balance is below every entry's. */
  lemma EntriesBounded(top: seq<Wallet>, b: real)
    requires forall y :: y in top ==> b <= y.balance
    ensures forall e :: e in Entries(top) ==> b <= e.balance
  {
    forall e | e in Entries(top) ensures b <= e.balance {
      var i :| 0 <= i < |top| && Entries(top)[i] == e;
      assert top[i] in top;
    }
  }

  function Remove(s: seq<string>, x: string): (r: seq<string>)
    ensures forall k :: k in r <==> k in s && k != x
    ensures NoDuplicates(s) ==> NoDuplicates(r)
  {
    if s == [] then []
    else if s[0] == x then Remove(s[1..], x)
    else
      var rest := Remove(s[1..], x);
      assert NoDuplicates(s) ==> NoDuplicates(s[1..]) && s[0] !in s[1..];
      [s[0]] + rest
  }

  lemma SliceFromStart<T>(s: seq<T>, limit: int)
    ensures limit >= 0 ==> |Slice(s, 0, limit)| == if limit < |s| then limit else |s|
    ensures forall x :: x in Slice(s, 0, limit) ==> x in s
  {
  }

}
