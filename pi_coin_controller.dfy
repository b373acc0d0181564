// The server-side Pi-coin wallet handlers. The wallet collection is a map
// from user id to wallet document, with the ids listed in insertion order
// (the collection's natural order). A handler that saves writes its wallet
// back into the map; one that fails returns the HTTP status and message.

module PiCoinController {
  import opened Wrappers
  import opened Seqs

  datatype TxType = Earn | Spend | Transfer

  datatype PiTransaction = PiTransaction(id: string, amount: real, txType: TxType, description: string, timestamp: int)

  datatype PiWallet = PiWallet(
    userId: string,
    balance: real,
    totalEarned: real,
    totalSpent: real,
    transactions: seq<PiTransaction>,
    level: int,
    achievements: seq<string>)

  /** The outcome of a handler: success, or an HTTP status with an error message. */
  datatype Reply = Success | Failure(status: int, error: string)

  /** A leaderboard row: the selected fields of a wallet. */
  datatype LeaderRow = LeaderRow(userId: string, balance: real, totalEarned: real, totalSpent: real,
                                 level: int, achievements: seq<string>)

  datatype TransactionsPage = TransactionsPage(transactions: seq<PiTransaction>, total: nat)

  datatype SortField = ByBalance | ByEarned

  /** A wallet as the schema defaults create it. */
  function NewPiWallet(userId: string): (w: PiWallet)
    ensures w.userId == userId && w.balance == 0.0 && w.totalEarned == 0.0 && w.totalSpent == 0.0
    ensures w.transactions == [] && w.level == 1 && w.achievements == []
  {
    PiWallet(userId, 0.0, 0.0, 0.0, [], 1, [])
  }

  predicate Consistent(w: PiWallet) {
    w.balance == w.totalEarned - w.totalSpent
  }

  /** "Level up every 1000 coins earned". */
  function LevelFor(totalEarned: real): int {
    (totalEarned / 1000.0).Floor + 1
  }

  /** Level k is reached exactly on the earnings in [1000(k-1), 1000k). */
  lemma LevelBand(totalEarned: real)
    ensures ((LevelFor(totalEarned) - 1) * 1000) as real <= totalEarned < (LevelFor(totalEarned) * 1000) as real
  {
  }

  lemma LevelMonotone(a: real, b: real)
    requires a <= b
    ensures LevelFor(a) <= LevelFor(b)
  {
  }

  lemma LevelAtLeastOne(totalEarned: real)
    requires totalEarned >= 0.0
    ensures LevelFor(totalEarned) >= 1
  {
  }

  /** The wallet after a successful earn: the level follows the new total earned. */
  function Earned(w: PiWallet, tx: PiTransaction): (r: PiWallet)
    ensures r.balance == w.balance + tx.amount && r.totalEarned == w.totalEarned + tx.amount
    ensures r.transactions == w.transactions + [tx] && r.level == LevelFor(r.totalEarned)
    ensures r.userId == w.userId && r.totalSpent == w.totalSpent && r.achievements == w.achievements
  {
    var credited := w.(balance := w.balance + tx.amount, totalEarned := w.totalEarned + tx.amount,
                       transactions := w.transactions + [tx]);
    credited.(level := LevelFor(credited.totalEarned))
  }

  /** The wallet after a successful spend, and the sender's side of a transfer. */
  function Debited(w: PiWallet, tx: PiTransaction): (r: PiWallet)
    ensures r.balance == w.balance - tx.amount && r.totalSpent == w.totalSpent + tx.amount
    ensures r.transactions == w.transactions + [tx]
    ensures r.userId == w.userId && r.totalEarned == w.totalEarned && r.level == w.level
    ensures r.achievements == w.achievements
  {
    w.(balance := w.balance - tx.amount, totalSpent := w.totalSpent + tx.amount, transactions := w.transactions + [tx])
  }

  /** The receiver's side of a transfer: credited, but the level is not recomputed. */
  function Received(w: PiWallet, tx: PiTransaction): (r: PiWallet)
    ensures r.balance == w.balance + tx.amount && r.totalEarned == w.totalEarned + tx.amount
    ensures r.transactions == w.transactions + [tx]
    ensures r.userId == w.userId && r.totalSpent == w.totalSpent && r.level == w.level
    ensures r.achievements == w.achievements
  {
    w.(balance := w.balance + tx.amount, totalEarned := w.totalEarned + tx.amount, transactions := w.transactions + [tx])
  }

  /** Earning, spending, sending and receiving all keep balance == totalEarned - totalSpent. */
  lemma UpdatesKeepConsistent(w: PiWallet, tx: PiTransaction)
    requires Consistent(w)
    ensures Consistent(Earned(w, tx)) && Consistent(Debited(w, tx)) && Consistent(Received(w, tx))
  {
  }

  /** A receiver's level can fall behind its earnings: a transfer in never recomputes it. */
  lemma ReceivedLevelLags(tx: PiTransaction)
    requires tx.amount >= 1000.0
    ensures var r := Received(NewPiWallet("receiver"), tx);
      r.level == 1 && LevelFor(r.totalEarned) >= 2
  {
  }

  /** A missing field is `!userId || !amount || !description`: an empty text or a zero amount. */
  function EarnRequestError(userId: string, amount: real, description: string): (r: Option<Reply>)
    ensures r.None? <==> userId != "" && description != "" && amount > 0.0
    ensures r.Some? ==> r.value.Failure? && r.value.status == 400
    ensures r.Some? && amount < 0.0 && userId != "" && description != "" ==>
      r.value.error == "Amount must be positive"
  {
    if userId == "" || amount == 0.0 || description == "" then
      Some(Failure(400, "userId, amount, and description are required"))
    else if amount <= 0.0 then Some(Failure(400, "Amount must be positive"))
    else None
  }

  function TransferRequestError(from: string, to: string, amount: real, description: string): (r: Option<Reply>)
    ensures r.None? <==> from != "" && to != "" && description != "" && amount > 0.0
    ensures r.Some? ==> r.value.Failure? && r.value.status == 400
  {
    if from == "" || to == "" || amount == 0.0 || description == "" then
      Some(Failure(400, "fromUserId, toUserId, amount, and description are required"))
    else if amount <= 0.0 then Some(Failure(400, "Amount must be positive"))
    else None
  }

  /** `sortBy === 'earned' ? 'totalEarned' : 'balance'`, where a missing sortBy is 'balance'. */
  function SortFieldFor(sortBy: string): (f: SortField)
    ensures f == ByEarned <==> sortBy == "earned"
  {
    if sortBy == "earned" then ByEarned else ByBalance
  }

  function SortKey(f: SortField): PiWallet -> real {
    if f == ByEarned then (w: PiWallet) => w.totalEarned else (w: PiWallet) => w.balance
  }

  function Row(w: PiWallet): LeaderRow {
    LeaderRow(w.userId, w.balance, w.totalEarned, w.totalSpent, w.level, w.achievements)
  }

  function Rows(ws: seq<PiWallet>): (r: seq<LeaderRow>)
    ensures |r| == |ws| && forall i :: 0 <= i < |ws| ==> r[i] == Row(ws[i])
  {
    if ws == [] then [] else [Row(ws[0])] + Rows(ws[1..])
  }

  /** MongoDB's `limit(n)`: 0 means no limit, and a negative n returns |n| documents. */
  function Limited<T>(s: seq<T>, n: int): (r: seq<T>)
    ensures n == 0 ==> r == s
    ensures n != 0 ==> |r| == (if Abs(n) < |s| then Abs(n) else |s|) && r == s[..|r|]
  {
    if n == 0 then s else s[..if Abs(n) < |s| then Abs(n) else |s|]
  }

  function Abs(n: int): nat {
    if n < 0 then -n else n
  }

  function WalletsOf(order: seq<string>, wallets: map<string, PiWallet>): (r: seq<PiWallet>)
    requires forall k :: k in order ==> k in wallets
    ensures |r| == |order| && forall i :: 0 <= i < |order| ==> r[i] == wallets[order[i]]
  {
    if order == [] then [] else [wallets[order[0]]] + WalletsOf(order[1..], wallets)
  }

  function Balance(w: PiWallet): real {
    w.balance
  }

  /** The wallet a handler loads: the stored one, or a new unsaved one. */
  function Loaded(wallets: map<string, PiWallet>, userId: string): (w: PiWallet)
    ensures userId in wallets ==> w == wallets[userId]
    ensures userId !in wallets ==> w == NewPiWallet(userId)
  {
    if userId in wallets then wallets[userId] else NewPiWallet(userId)
  }

  /** Neither party's summed balance changes in a transfer between two wallets. */
  lemma TransferPreservesPair(sender: PiWallet, receiver: PiWallet, out: PiTransaction, into: PiTransaction)
    requires out.amount == into.amount
    ensures Debited(sender, out).balance + Received(receiver, into).balance == sender.balance + receiver.balance
    ensures Debited(sender, out).totalSpent - sender.totalSpent == Received(receiver, into).totalEarned - receiver.totalEarned
  {
  }

  /** Saving the two sides of a transfer changes the summed balance by the
      two balances' changes; a receiver saved for the first time had none. */
  lemma TransferSum(order: seq<string>, m: map<string, PiWallet>, from: string, to: string, a: PiWallet, b: PiWallet)
    requires NoDuplicates(order) && (forall k :: k in order ==> k in m) && (forall k :: k in m ==> k in order)
    requires from in m && from != to
    ensures SumOver(if to in m then order else order + [to], m[from := a][to := b], Balance)
      == SumOver(order, m, Balance) - m[from].balance + a.balance + b.balance - (if to in m then m[to].balance else 0.0)
  {
    SumOverUpdate(order, m, from, a, Balance);
    if to in m {
      SumOverUpdate(order, m[from := a], to, b, Balance);
    } else {
      SumOverAppend(order, m[from := a], to, b, Balance);
    }
  }

  /** The sender's record of a transfer. */
  function SentTx(transferId: string, amount: real, to: string, description: string, now: int): PiTransaction {
    PiTransaction(transferId, amount, Transfer, "Transfer to " + to + ": " + description, now)
  }

  /** The receiver's record of a transfer, under the same id. */
  function ReceivedTx(transferId: string, amount: real, from: string, description: string, now: int): PiTransaction {
    PiTransaction(transferId, amount, Transfer, "Transfer from " + from + ": " + description, now)
  }

  /**
   * The one wallet after a transfer to oneself as the handler runs it: the
   * wallet is loaded twice, one copy is debited and the other credited, and
   * both are saved. The second save writes only what its copy changed (the
   * balance and total earned it computed from the loaded wallet, and its
   * pushed transaction) over what the first save stored.
   */
  function SelfTransferAsWritten(w: PiWallet, out: PiTransaction, into: PiTransaction): (r: PiWallet)
    ensures r.balance == Received(w, into).balance && r.totalEarned == Received(w, into).totalEarned
    ensures r.totalSpent == Debited(w, out).totalSpent
    ensures r.transactions == w.transactions + [out, into]
    ensures r.userId == w.userId && r.level == w.level && r.achievements == w.achievements
  {
    var first := Debited(w, out);
    var second := Received(w, into);
    assert first.transactions + [into] == w.transactions + [out, into];
    first.(balance := second.balance, totalEarned := second.totalEarned, transactions := first.transactions + [into])
  }

  /**
   * A transfer as intended: the sender debited and the receiver credited, and
   * both updates applied in turn to the one wallet when they are the same user.
   */
  function Transferred(m: map<string, PiWallet>, from: string, to: string, out: PiTransaction, into: PiTransaction)
    : (r: map<string, PiWallet>)
    requires from in m
    ensures r.Keys == m.Keys + {to}
    ensures forall k :: k in m && k != from && k != to ==> r[k] == m[k]
  {
    if from == to then m[from := Received(Debited(m[from], out), into)]
    else m[from := Debited(m[from], out)][to := Received(Loaded(m, to), into)]
  }

  /** The intended transfer keeps every wallet's ledger and the summed balance,
      a transfer to oneself included. */
  lemma TransferredConserves(order: seq<string>, m: map<string, PiWallet>, from: string, to: string,
                             out: PiTransaction, into: PiTransaction)
    requires NoDuplicates(order) && (forall k :: k in order ==> k in m) && (forall k :: k in m ==> k in order)
    requires forall k :: k in m ==> Consistent(m[k])
    requires from in m && out.amount == into.amount
    ensures var r := Transferred(m, from, to, out, into);
      var listed := if to in m then order else order + [to];
      (forall k :: k in listed ==> k in r)
      && SumOver(listed, r, Balance) == SumOver(order, m, Balance)
      && (forall k :: k in r ==> Consistent(r[k]))
  {
    UpdatesKeepConsistent(m[from], out);
    if from == to {
      UpdatesKeepConsistent(Debited(m[from], out), into);
      SumOverUpdate(order, m, from, Received(Debited(m[from], out), into), Balance);
    } else {
      UpdatesKeepConsistent(Loaded(m, to), into);
      TransferSum(order, m, from, to, Debited(m[from], out), Received(Loaded(m, to), into));
      TransferPreservesPair(m[from], Loaded(m, to), out, into);
    }
  }

  /**
   * A transfer to oneself as written mints the amount: the wallet, and so the
   * summed balance, ends `amount` higher, where the intended transfer leaves
   * it unchanged, and its balance no longer equals earned minus spent.
   */
  lemma SelfTransferMints(order: seq<string>, m: map<string, PiWallet>, from: string,
                          out: PiTransaction, into: PiTransaction)
    requires NoDuplicates(order) && (forall k :: k in order ==> k in m) && (forall k :: k in m ==> k in order)
    requires from in m && out.amount == into.amount && out.amount > 0.0
    ensures SelfTransferAsWritten(m[from], out, into).balance == m[from].balance + out.amount
    ensures SumOver(order, m[from := SelfTransferAsWritten(m[from], out, into)], Balance)
      == SumOver(order, m, Balance) + out.amount
    ensures Transferred(m, from, from, out, into)[from].balance == m[from].balance
    ensures Consistent(m[from]) ==> !Consistent(SelfTransferAsWritten(m[from], out, into))
  {
    SumOverUpdate(order, m, from, SelfTransferAsWritten(m[from], out, into), Balance);
  }

  class Store {
    var wallets: map<string, PiWallet>
    /** The user ids in the order their wallets were first saved. */
    var order: seq<string>

    ghost predicate Valid()
      reads this
    {
      NoDuplicates(order)
      && (forall k :: k in order ==> k in wallets)
      && (forall k :: k in wallets ==> k in order)
      && (forall k :: k in wallets ==> wallets[k].userId == k && wallets[k].balance >= 0.0)
    }

    /** Every stored wallet's balance is its total earned minus its total spent. */
    ghost predicate Balanced()
      reads this
    {
      forall k :: k in wallets ==> Consistent(wallets[k])
    }

    constructor()
      ensures Valid() && Balanced() && wallets == map[] && order == []
    {
      wallets := map[];
      order := [];
    }

    /** Saves a wallet under its own id, listing the id if it is new. */
    method Save(w: PiWallet)
      requires Valid() && w.balance >= 0.0
      modifies this
      ensures Valid()
      ensures old(Balanced()) && Consistent(w) ==> Balanced()
      ensures wallets == old(wallets)[w.userId := w]
      ensures order == if w.userId in old(wallets) then old(order) else old(order) + [w.userId]
    {
      if w.userId !in wallets {
        order := order + [w.userId];
      }
      wallets := wallets[w.userId := w];
    }

    /** `getWallet`: a missing wallet is created with the schema defaults and saved. */
    method GetWallet(userId: string) returns (w: PiWallet)
      requires Valid()
      modifies this
      ensures Valid() && w == Loaded(old(wallets), userId)
      ensures old(Balanced()) ==> Balanced()
      ensures wallets == old(wallets)[userId := w]
      ensures order == if userId in old(wallets) then old(order) else old(order) + [userId]
    {
      w := Loaded(wallets, userId);
      Save(w);
    }

    /** `earnCoins`: a missing wallet is created by the earn itself. */
    method EarnCoins(userId: string, amount: real, description: string, txId: string, now: int)
        returns (reply: Reply)
      requires Valid()
      modifies this
      ensures Valid()
      ensures old(Balanced()) ==> Balanced()
      ensures reply == Success <==> EarnRequestError(userId, amount, description).None?
      ensures reply != Success ==>
        reply == EarnRequestError(userId, amount, description).value
        && wallets == old(wallets) && order == old(order)
      ensures reply == Success ==>
        wallets == old(wallets)[userId := Earned(Loaded(old(wallets), userId),
                                                 PiTransaction(txId, amount, Earn, description, now))]
        && order == (if userId in old(wallets) then old(order) else old(order) + [userId])
    {
      var invalid := EarnRequestError(userId, amount, description);
      if invalid.Some? {
        return invalid.value;
      }
      var w := Loaded(wallets, userId);
      if Balanced() {
        UpdatesKeepConsistent(w, PiTransaction(txId, amount, Earn, description, now));
      }
      Save(Earned(w, PiTransaction(txId, amount, Earn, description, now)));
      reply := Success;
    }

    /** `spendCoins`: the wallet must exist and hold at least the amount. */
    method SpendCoins(userId: string, amount: real, description: string, txId: string, now: int)
        returns (reply: Reply)
      requires Valid()
      modifies this
      ensures Valid() && order == old(order)
      ensures old(Balanced()) ==> Balanced()
      ensures EarnRequestError(userId, amount, description).Some? ==>
        reply == EarnRequestError(userId, amount, description).value
      ensures EarnRequestError(userId, amount, description).None? && userId !in old(wallets) ==>
        reply == Failure(404, "Wallet not found")
      ensures EarnRequestError(userId, amount, description).None? && userId in old(wallets)
              && old(wallets)[userId].balance < amount ==>
        reply == Failure(400, "Insufficient balance")
      ensures reply == Success <==>
        EarnRequestError(userId, amount, description).None? && userId in old(wallets)
        && old(wallets)[userId].balance >= amount
      ensures reply != Success ==> wallets == old(wallets)
      ensures reply == Success ==>
        wallets == old(wallets)[userId := Debited(old(wallets)[userId], PiTransaction(txId, amount, Spend, description, now))]
    {
      var invalid := EarnRequestError(userId, amount, description);
      if invalid.Some? {
        return invalid.value;
      }
      if userId !in wallets {
        return Failure(404, "Wallet not found");
      }
      var w := wallets[userId];
      if w.balance < amount {
        return Failure(400, "Insufficient balance");
      }
      if Balanced() {
        UpdatesKeepConsistent(w, PiTransaction(txId, amount, Spend, description, now));
      }
      Save(Debited(w, PiTransaction(txId, amount, Spend, description, now)));
      reply := Success;
    }

    /**
     * The saves of a transfer between two users that passed its checks: the
     * debited sender, then the credited receiver.
     */
    method SaveTransfer(from: string, to: string, out: PiTransaction, into: PiTransaction)
      requires Valid() && from in wallets && from != to && out.amount == into.amount
      requires wallets[from].balance >= out.amount && out.amount > 0.0
      modifies this
      ensures Valid()
      ensures wallets == Transferred(old(wallets), from, to, out, into)
      ensures order == if to in old(wallets) then old(order) else old(order) + [to]
      ensures SumOver(order, wallets, Balance) == old(SumOver(order, wallets, Balance))
      ensures old(Balanced()) ==> Balanced()
    {
      var sender := wallets[from];
      var receiver := Loaded(wallets, to);
      ghost var order0, wallets0 := order, wallets;
      if Balanced() {
        UpdatesKeepConsistent(sender, out);
        UpdatesKeepConsistent(receiver, into);
      }
      Save(Debited(sender, out));
      Save(Received(receiver, into));
      TransferSum(order0, wallets0, from, to, Debited(sender, out), Received(receiver, into));
      TransferPreservesPair(sender, receiver, out, into);
    }

    /**
     * The saves of a transfer to oneself: both copies of the wallet are loaded
     * before either is saved, the debited copy first and the credited second.
     */
    method SaveSelfTransfer(from: string, out: PiTransaction, into: PiTransaction)
      requires Valid() && from in wallets && out.amount == into.amount
      requires wallets[from].balance >= out.amount && out.amount > 0.0
      modifies this
      ensures Valid() && order == old(order)
      ensures wallets == old(wallets)[from := SelfTransferAsWritten(old(wallets)[from], out, into)]
      ensures SumOver(order, wallets, Balance) == old(SumOver(order, wallets, Balance)) + out.amount
    {
      var first := wallets[from];
      var second := wallets[from];
      ghost var wallets0 := wallets;
      Save(Debited(first, out));
      Save(SelfTransferAsWritten(second, out, into));
      assert wallets == wallets0[from := SelfTransferAsWritten(second, out, into)];
      SelfTransferMints(order, wallets0, from, out, into);
    }

    /**
     * `transferCoins`. Both sides record a transaction with the same transfer
     * id, and a missing receiver is created. Between two users this is the
     * intended transfer and keeps the summed balance; a transfer to oneself
     * is not refused, and mints the amount (SelfTransferMints).
     */
    method TransferCoins(from: string, to: string, amount: real, description: string, transferId: string, now: int)
        returns (reply: Reply)
      requires Valid()
      modifies this
      ensures Valid()
      ensures TransferRequestError(from, to, amount, description).Some? ==>
        reply == TransferRequestError(from, to, amount, description).value
      ensures TransferRequestError(from, to, amount, description).None? && from !in old(wallets) ==>
        reply == Failure(404, "Sender wallet not found")
      ensures TransferRequestError(from, to, amount, description).None? && from in old(wallets)
              && old(wallets)[from].balance < amount ==>
        reply == Failure(400, "Insufficient balance")
      ensures reply == Success <==>
        TransferRequestError(from, to, amount, description).None? && from in old(wallets)
        && old(wallets)[from].balance >= amount
      ensures reply != Success ==> wallets == old(wallets) && order == old(order)
      ensures reply == Success && from != to ==>
        wallets == Transferred(old(wallets), from, to, SentTx(transferId, amount, to, description, now),
                               ReceivedTx(transferId, amount, from, description, now))
        && order == (if to in old(wallets) then old(order) else old(order) + [to])
      ensures reply == Success && from == to ==>
        wallets == old(wallets)[from := SelfTransferAsWritten(old(wallets)[from],
                                                              SentTx(transferId, amount, to, description, now),
                                                              ReceivedTx(transferId, amount, from, description, now))]
        && order == old(order)
      ensures reply == Success && from != to ==>
        SumOver(order, wallets, Balance) == old(SumOver(order, wallets, Balance))
      ensures reply == Success && from == to ==>
        SumOver(order, wallets, Balance) == old(SumOver(order, wallets, Balance)) + amount
      ensures old(Balanced()) && (reply != Success || from != to) ==> Balanced()
    {
      var invalid := TransferRequestError(from, to, amount, description);
      if invalid.Some? {
        return invalid.value;
      }
      if from !in wallets {
        return Failure(404, "Sender wallet not found");
      }
      var sender := wallets[from];
      if sender.balance < amount {
        return Failure(400, "Insufficient balance");
      }
      var out := SentTx(transferId, amount, to, description, now);
      var into := ReceivedTx(transferId, amount, from, description, now);
      if from == to {
        SaveSelfTransfer(from, out, into);
      } else {
        SaveTransfer(from, to, out, into);
      }
      reply := Success;
    }

    /**
     * `getTransactions`: newest first, the window [offset, offset + limit) of
     * JavaScript's `slice`, and the full count. The sort is not saved.
     */
    function GetTransactions(userId: string, limit: int, offset: int): (page: TransactionsPage)
      reads this
      ensures userId !in wallets ==> page == TransactionsPage([], 0)
      ensures userId in wallets ==>
        var sorted := SortDesc(wallets[userId].transactions, (t: PiTransaction) => t.timestamp as real);
        page.total == |wallets[userId].transactions|
        && page.transactions == Slice(sorted, offset, offset + limit)
        && multiset(sorted) == multiset(wallets[userId].transactions)
      ensures SortedDesc(page.transactions, (t: PiTransaction) => t.timestamp as real)
      ensures |page.transactions| <= page.total
    {
      if userId !in wallets then TransactionsPage([], 0)
      else
        var ts := wallets[userId].transactions;
        var sorted := SortDesc(ts, (t: PiTransaction) => t.timestamp as real);
        SliceKeepsOrder(sorted, offset, offset + limit, (t: PiTransaction) => t.timestamp as real);
        TransactionsPage(Slice(sorted, offset, offset + limit), |ts|)
    }

    /**
     * `getLeaderboard`: sorted on the chosen field, largest first, then limited.
     * Each wallet is listed once, and none left out ranks above a listed one.
     */
    function GetLeaderboard(limit: int, sortBy: string): (rows: seq<LeaderRow>)
      requires Valid()
      reads this
      ensures SortedDesc(rows, (r: LeaderRow) => if SortFieldFor(sortBy) == ByEarned then r.totalEarned else r.balance)
      ensures forall i, j :: 0 <= i < j < |rows| ==> rows[i].userId != rows[j].userId
      ensures forall k :: k in wallets && !Shown(rows, k) ==>
        forall r :: r in rows ==> SortKey(SortFieldFor(sortBy))(wallets[k]) <= RowKey(SortFieldFor(sortBy), r)
      ensures limit == 0 ==> |rows| == |order|
      ensures limit != 0 ==> |rows| == if Abs(limit) < |order| then Abs(limit) else |order|
      ensures forall r :: r in rows ==> r.userId in wallets && r == Row(wallets[r.userId])
    {
      LeaderboardTop(order, wallets, SortFieldFor(sortBy), limit);
      LeaderboardRows(order, wallets, SortFieldFor(sortBy), limit);
      Rows(Limited(SortDesc(WalletsOf(order, wallets), SortKey(SortFieldFor(sortBy))), limit))
    }

    /** `addAchievement`: pushed only if not already present. */
    method AddAchievement(userId: string, achievement: string) returns (reply: Reply)
      requires Valid()
      modifies this
      ensures Valid() && order == old(order)
      ensures old(Balanced()) ==> Balanced()
      ensures userId == "" || achievement == "" ==>
        reply == Failure(400, "userId and achievement are required") && wallets == old(wallets)
      ensures userId != "" && achievement != "" && userId !in old(wallets) ==>
        reply == Failure(404, "Wallet not found") && wallets == old(wallets)
      ensures userId != "" && achievement != "" && userId in old(wallets) ==>
        reply == Success && wallets == old(wallets)[userId := WithAchievement(old(wallets)[userId], achievement)]
    {
      if userId == "" || achievement == "" {
        return Failure(400, "userId and achievement are required");
      }
      if userId !in wallets {
        return Failure(404, "Wallet not found");
      }
      Save(WithAchievement(wallets[userId], achievement));
      reply := Success;
    }
  }

  function WithAchievement(w: PiWallet, a: string): (r: PiWallet)
    ensures a in r.achievements
    ensures a in w.achievements ==> r == w
    ensures a !in w.achievements ==> r == w.(achievements := w.achievements + [a])
  {
    if a in w.achievements then w else w.(achievements := w.achievements + [a])
  }

  /** Adding the same achievement twice is the same as adding it once. */
  lemma AchievementIdempotent(w: PiWallet, a: string)
    ensures WithAchievement(WithAchievement(w, a), a) == WithAchievement(w, a)
    ensures NoDuplicates(w.achievements) ==> NoDuplicates(WithAchievement(w, a).achievements)
  {
  }


  /** A reordering of the listed wallets holds only stored wallets, each under its own id. */
  lemma StoredWallets(order: seq<string>, wallets: map<string, PiWallet>, ranked: seq<PiWallet>)
    requires forall k :: k in order ==> k in wallets
    requires forall k :: k in wallets ==> wallets[k].userId == k
    requires multiset(ranked) == multiset(WalletsOf(order, wallets))
    ensures forall w :: w in ranked ==> w.userId in wallets && wallets[w.userId] == w
  {
    forall w | w in ranked
      ensures w.userId in wallets && wallets[w.userId] == w
    {
      assert w in multiset(ranked);
      var listed := WalletsOf(order, wallets);
      assert w in multiset(listed);
      var i :| 0 <= i < |listed| && listed[i] == w;
    }
  }

  lemma RowsRanked(ws: seq<PiWallet>, f: SortField, wallets: map<string, PiWallet>)
    requires SortedDesc(ws, SortKey(f))
    requires forall w :: w in ws ==> w.userId in wallets && wallets[w.userId] == w
    ensures SortedDesc(Rows(ws), (r: LeaderRow) => if f == ByEarned then r.totalEarned else r.balance)
    ensures forall r :: r in Rows(ws) ==> r.userId in wallets && r == Row(wallets[r.userId])
  {
    var rs := Rows(ws);
    forall r | r in rs
      ensures r.userId in wallets && r == Row(wallets[r.userId])
    {
      var i :| 0 <= i < |rs| && rs[i] == r;
      assert ws[i] in ws;
    }
  }

  /** The field a leaderboard row is ranked on. */
  function RowKey(f: SortField, r: LeaderRow): real {
    if f == ByEarned then r.totalEarned else r.balance
  }

  /** Some row of the leaderboard is the user's. */
  predicate Shown(rows: seq<LeaderRow>, k: string) {
    exists r :: r in rows && r.userId == k
  }

  /** The leaderboard lists distinct wallets, and none it leaves out ranks above one it lists. */
  lemma LeaderboardTop(order: seq<string>, wallets: map<string, PiWallet>, f: SortField, limit: int)
    requires NoDuplicates(order)
    requires forall k :: k in order ==> k in wallets
    requires forall k :: k in wallets ==> k in order
    requires forall k :: k in wallets ==> wallets[k].userId == k
    ensures var rows := Rows(Limited(SortDesc(WalletsOf(order, wallets), SortKey(f)), limit));
      (forall i, j :: 0 <= i < j < |rows| ==> rows[i].userId != rows[j].userId)
      && (forall k :: k in wallets && !Shown(rows, k) ==> forall r :: r in rows ==> SortKey(f)(wallets[k]) <= RowKey(f, r))
  {
    var ranked := SortDesc(WalletsOf(order, wallets), SortKey(f));
    var top := Limited(ranked, limit);
    assert top == ranked[..|top|];
    PrefixTop(order, wallets, f, top);
  }

  /** The same for any prefix of the ranking. */
  lemma PrefixTop(order: seq<string>, wallets: map<string, PiWallet>, f: SortField, top: seq<PiWallet>)
    requires NoDuplicates(order)
    requires forall k :: k in order ==> k in wallets
    requires forall k :: k in wallets ==> k in order
    requires forall k :: k in wallets ==> wallets[k].userId == k
    requires |top| <= |order| && top == SortDesc(WalletsOf(order, wallets), SortKey(f))[..|top|]
    ensures var rows := Rows(top);
      (forall i, j :: 0 <= i < j < |rows| ==> rows[i].userId != rows[j].userId)
      && (forall k :: k in wallets && !Shown(rows, k) ==> forall r :: r in rows ==> SortKey(f)(wallets[k]) <= RowKey(f, r))
  {
    var all := WalletsOf(order, wallets);
    ListedOnce(order, wallets);
    TopOfSortedTake(all, SortKey(f), top);
    TopRows(top, all, wallets, f);
  }

  /** The leaderboard is ranked on the chosen field, cut at |limit|, and each row shows its stored wallet. */
  lemma LeaderboardRows(order: seq<string>, wallets: map<string, PiWallet>, f: SortField, limit: int)
    requires forall k :: k in order ==> k in wallets
    requires forall k :: k in wallets ==> wallets[k].userId == k
    ensures var rows := Rows(Limited(SortDesc(WalletsOf(order, wallets), SortKey(f)), limit));
      SortedDesc(rows, (r: LeaderRow) => if f == ByEarned then r.totalEarned else r.balance)
      && (limit == 0 ==> |rows| == |order|)
      && (limit != 0 ==> |rows| == if Abs(limit) < |order| then Abs(limit) else |order|)
      && (forall r :: r in rows ==> r.userId in wallets && r == Row(wallets[r.userId]))
  {
    var ranked := SortDesc(WalletsOf(order, wallets), SortKey(f));
    var top := Limited(ranked, limit);
    StoredWallets(order, wallets, ranked);
    PrefixSorted(ranked, SortKey(f), |top|);
    assert top == ranked[..|top|];
    RowsRanked(top, f, wallets);
  }

  /** The listed wallets are distinct, each stored under its own id, and every stored one is listed. */
  lemma ListedOnce(order: seq<string>, wallets: map<string, PiWallet>)
    requires forall k :: k in order ==> k in wallets
    requires forall k :: k in wallets ==> k in order
    requires forall k :: k in wallets ==> wallets[k].userId == k
    requires NoDuplicates(order)
    ensures NoDuplicates(WalletsOf(order, wallets))
    ensures forall x :: x in WalletsOf(order, wallets) ==> x.userId in wallets && wallets[x.userId] == x
    ensures forall k :: k in wallets ==> wallets[k] in WalletsOf(order, wallets)
  {
    var all := WalletsOf(order, wallets);
    forall i, j | 0 <= i < j < |all| ensures all[i] != all[j] {
      assert all[i] == wallets[order[i]] && all[j] == wallets[order[j]];
      assert order[i] in wallets && order[j] in wallets && order[i] != order[j];
      assert all[i].userId == order[i] && all[j].userId == order[j];
    }
    forall x | x in all ensures x.userId in wallets && wallets[x.userId] == x {
      var i :| 0 <= i < |all| && all[i] == x;
      assert x == wallets[order[i]] && order[i] in wallets;
      assert x.userId == order[i];
    }
    forall k | k in wallets ensures wallets[k] in all {
      var n :| 0 <= n < |order| && order[n] == k;
      assert all[n] == wallets[k];
    }
  }

  /** Rows of the first wallets of a ranking of the stored ones. */
  lemma TopRows(top: seq<PiWallet>, all: seq<PiWallet>, wallets: map<string, PiWallet>, f: SortField)
    requires NoDuplicates(top) && multiset(top) <= multiset(all)
    requires forall x :: x in all ==> x.userId in wallets && wallets[x.userId] == x
    requires forall k :: k in wallets ==> wallets[k] in all && wallets[k].userId == k
    requires forall x, y :: (x in all && y in top && multiset(top)[x] < multiset(all)[x]) ==> SortKey(f)(x) <= SortKey(f)(y)
    ensures var rows := Rows(top);
      (forall i, j :: 0 <= i < j < |rows| ==> rows[i].userId != rows[j].userId)
      && (forall k :: k in wallets && !Shown(rows, k) ==> forall r :: r in rows ==> SortKey(f)(wallets[k]) <= RowKey(f, r))
  {
    forall x | x in top ensures x in all {
      assert x in multiset(top);
    }
    var rows := Rows(top);
    forall i, j | 0 <= i < j < |rows| ensures rows[i].userId != rows[j].userId {
      assert rows[i].userId == top[i].userId && rows[j].userId == top[j].userId;
      assert top[i] in top && top[j] in top;
      assert top[i] != top[j];
      assert wallets[top[i].userId] == top[i] && wallets[top[j].userId] == top[j];
    }
    forall k | k in wallets && !Shown(rows, k)
      ensures forall r :: r in rows ==> SortKey(f)(wallets[k]) <= RowKey(f, r)
    {
      RowBelow(top, all, wallets[k], f);
    }
  }

  /** A wallet of the ranking whose row is not shown ranks no higher than any shown. */
  lemma RowBelow(top: seq<PiWallet>, all: seq<PiWallet>, w: PiWallet, f: SortField)
    requires w in all && !Shown(Rows(top), w.userId)
    requires forall x, y :: (x in all && y in top && multiset(top)[x] < multiset(all)[x]) ==> SortKey(f)(x) <= SortKey(f)(y)
    ensures forall r :: r in Rows(top) ==> SortKey(f)(w) <= RowKey(f, r)
  {
    NotShownNotTop(top, w);
    assert multiset(top)[w] == 0 && w in multiset(all);
    RowsBounded(top, f, SortKey(f)(w));
  }

  lemma NotShownNotTop(top: seq<PiWallet>, w: PiWallet)
    requires !Shown(Rows(top), w.userId)
    ensures w !in top
  {
  }

  /** A bound below every listed wallet's key is below every row's. */
  lemma RowsBounded(top: seq<PiWallet>, f: SortField, b: real)
    requires forall y :: y in top ==> b <= SortKey(f)(y)
    ensures forall r :: r in Rows(top) ==> b <= RowKey(f, r)
  {
    forall r | r in Rows(top) ensures b <= RowKey(f, r) {
      var i :| 0 <= i < |top| && Rows(top)[i] == r;
      assert top[i] in top;
    }
  }
}
