// The backend payment routes: the early-return validation chain of
// POST /process (required fields, age gates, minor limits, kids-mode
// gambling block) and the kids-mode filter of GET /transactions.

module PaymentRoutes {
  import opened Wrappers
  import opened Strings
  import opened Seqs

  const MinimumAgeForPayments := 18.0
  const MinimumAgeWithConsent := 13.0
  const MaxMinorTransaction := 50.0
  const DefaultCategoryLimit := 25.0

  /** The request body; `amount` is `None` when absent or NaN, `type` when
      absent, and `parentalConsent` is its truthiness. */
  datatype ProcessRequest = ProcessRequest(
    amount: Option<real>,
    txType: Option<string>,
    description: Option<string>,
    userAge: Option<real>,
    parentalConsent: bool)

  datatype Rejection =
    | MissingFields
    | Underage
    | ConsentRequired
    | MinorAmountLimit
    | CategoryLimitExceeded(limit: real)
    | KidsModeRestriction

  datatype Transaction = Transaction(id: string, txType: string, amount: real, description: Option<string>, status: string)

  datatype ProcessReply = Processed(transaction: Transaction) | Rejected(reason: Rejection)

  function Status(r: Rejection): (s: int)
    ensures s == 400 <==> r == MissingFields
    ensures s == 400 || s == 403
  {
    if r == MissingFields then 400 else 403
  }

  function Code(r: Rejection): string {
    match r
    case MissingFields => ""
    case Underage => "AGE_RESTRICTION_UNDERAGE"
    case ConsentRequired => "PARENTAL_CONSENT_REQUIRED"
    case MinorAmountLimit => "MINOR_AMOUNT_LIMIT_EXCEEDED"
    case CategoryLimitExceeded(_) => "CATEGORY_LIMIT_EXCEEDED"
    case KidsModeRestriction => "KIDS_MODE_RESTRICTION"
  }

  /** The per-category limits for minors, own keys of the table only. */
  function CategoryLimit(t: string): (l: real)
    ensures l in {20.0, 30.0, 40.0, 50.0, DefaultCategoryLimit}
    ensures l <= MaxMinorTransaction
  {
    if t == "in_app_purchase" then 20.0
    else if t == "subscription" then 30.0
    else if t == "picoins" then 50.0
    else if t == "premium" then 40.0
    else DefaultCategoryLimit
  }

  /** `CATEGORY_LIMITS[type] || CATEGORY_LIMITS.default` as written: an
      inherited name yields a function or object, which is truthy and, when
      compared with `amount > limit`, converts to NaN; `None` stands for it. */
  function CategoryLimitAsWritten(t: string): (l: Option<real>)
    ensures l.None? <==> t in ObjectPrototypeNames
    ensures l.Some? ==> l.value == CategoryLimit(t)
  {
    if t in ObjectPrototypeNames then None else Some(CategoryLimit(t))
  }

  /** `amount > limit`, false when the limit is not a number. */
  predicate Exceeds(amount: real, limit: Option<real>) {
    limit.Some? && amount > limit.value
  }

  /** The kids-mode gambling test: `bet` or `wager` in the type, `gambling`
      in the description, ignoring case. */
  predicate IsGambling(t: Option<string>, description: Option<string>) {
    (t.Some? && (Contains(ToLower(t.value), "bet") || Contains(ToLower(t.value), "wager")))
    || (description.Some? && Contains(ToLower(description.value), "gambling"))
  }

  /** `(request as any).kidsMode || query.kidsMode === 'true'`. */
  function KidsMode(flag: bool, query: Option<string>): (k: bool)
    ensures k <==> flag || query == Some("true")
  {
    flag || query == Some("true")
  }

  predicate FieldsPresent(req: ProcessRequest) {
    req.amount.Some? && req.amount.value != 0.0 && req.txType.Some? && req.txType.value != ""
  }

  /** The chain of checks in order, with the category limit as looked up. */
  function ProcessWith(req: ProcessRequest, kidsMode: bool, now: int, limitOf: string -> Option<real>): ProcessReply {
    if !FieldsPresent(req) then Rejected(MissingFields)
    else
      var amount := req.amount.value;
      var t := req.txType.value;
      var minor := req.userAge.Some? && req.userAge.value < MinimumAgeForPayments;
      if req.userAge.Some? && req.userAge.value < MinimumAgeWithConsent then Rejected(Underage)
      else if minor && !req.parentalConsent then Rejected(ConsentRequired)
      else if minor && amount > MaxMinorTransaction then Rejected(MinorAmountLimit)
      else if minor && Exceeds(amount, limitOf(t)) then Rejected(CategoryLimitExceeded(limitOf(t).value))
      else if kidsMode && IsGambling(req.txType, req.description) then Rejected(KidsModeRestriction)
      else Processed(Transaction("TX-" + IntToString(now), t, amount, req.description, "success"))
  }

  function OwnCategoryLimit(t: string): Option<real> {
    Some(CategoryLimit(t))
  }

  /** POST /process as written. */
  function ProcessAsWritten(req: ProcessRequest, kidsMode: bool, now: int): ProcessReply {
    ProcessWith(req, kidsMode, now, CategoryLimitAsWritten)
  }

  /** POST /process with the category table read through its own keys. */
  function Process(req: ProcessRequest, kidsMode: bool, now: int): (r: ProcessReply)
    ensures !FieldsPresent(req) ==> r == Rejected(MissingFields)
    ensures r.Processed? ==> (r.transaction.txType == req.txType.value
      && r.transaction.amount == req.amount.value && r.transaction.status == "success"
      && r.transaction.description == req.description)
  {
    ProcessWith(req, kidsMode, now, OwnCategoryLimit)
  }

  /** A user known to be under 13 is always turned away once the fields are there. */
  lemma UnderThirteenRejected(req: ProcessRequest, kidsMode: bool, now: int)
    requires FieldsPresent(req) && req.userAge.Some? && req.userAge.value < MinimumAgeWithConsent
    ensures Process(req, kidsMode, now) == Rejected(Underage)
    ensures ProcessAsWritten(req, kidsMode, now) == Rejected(Underage)
  {
  }

  /** 13 to 17 without consent is turned away. */
  lemma MinorWithoutConsentRejected(req: ProcessRequest, kidsMode: bool, now: int)
    requires FieldsPresent(req) && req.userAge.Some?
    requires MinimumAgeWithConsent <= req.userAge.value < MinimumAgeForPayments && !req.parentalConsent
    ensures Process(req, kidsMode, now) == Rejected(ConsentRequired)
  {
  }

  /** An accepted payment by a known minor is within both the minor cap and
      the category limit, and comes with consent. */
  lemma MinorAcceptedWithinLimits(req: ProcessRequest, kidsMode: bool, now: int)
    requires req.userAge.Some? && req.userAge.value < MinimumAgeForPayments
    requires Process(req, kidsMode, now).Processed?
    ensures req.parentalConsent && req.userAge.value >= MinimumAgeWithConsent
    ensures req.amount.value <= CategoryLimit(req.txType.value) <= MaxMinorTransaction
  {
  }

  /** Without a stated age no age or limit check applies. */
  lemma NoAgeNoLimits(req: ProcessRequest, now: int)
    requires FieldsPresent(req) && req.userAge.None?
    ensures Process(req, false, now).Processed?
  {
  }

  /** Kids mode never lets a gambling payment through, and is the only
      difference it makes. */
  lemma KidsModeBlocksGambling(req: ProcessRequest, now: int)
    ensures Process(req, true, now).Processed? ==> !IsGambling(req.txType, req.description)
    ensures !IsGambling(req.txType, req.description) ==> Process(req, true, now) == Process(req, false, now)
  {
  }

  /** The as-written lookup lets a minor pay more than the default category
      limit under an inherited property name. */
  lemma InheritedNameSkipsCategoryLimit(req: ProcessRequest, now: int)
    requires req == ProcessRequest(Some(40.0), Some("toString"), None, Some(15.0), true)
    ensures ProcessAsWritten(req, false, now).Processed?
    ensures Process(req, false, now) == Rejected(CategoryLimitExceeded(DefaultCategoryLimit))
  {
    assert "toString" in ObjectPrototypeNames;
    assert "toString" != "in_app_purchase" && "toString" != "subscription";
    assert "toString" != "picoins" && "toString" != "premium";
  }

  /** Even as written, a minor's accepted payment stays within the overall
      minor cap. */
  lemma MinorAcceptedAsWrittenCapped(req: ProcessRequest, kidsMode: bool, now: int)
    requires req.userAge.Some? && req.userAge.value < MinimumAgeForPayments
    requires ProcessAsWritten(req, kidsMode, now).Processed?
    ensures req.amount.value <= MaxMinorTransaction
  {
  }

  /** Both readings agree on every type that is not an inherited name. */
  lemma LookupsAgreeOnOtherNames(req: ProcessRequest, kidsMode: bool, now: int)
    requires req.txType.Some? ==> req.txType.value !in ObjectPrototypeNames
    ensures ProcessAsWritten(req, kidsMode, now) == Process(req, kidsMode, now)
  {
  }

  // ---------------------------------------------------------------------
  // GET /transactions

  datatype TxRecord = TxRecord(txType: Option<string>, amount: real, description: Option<string>)

  /** The placeholder history the route serves. */
  const PlaceholderHistory: seq<TxRecord> := [
    TxRecord(Some("wallet"), 2000.0, Some("Food")),
    TxRecord(Some("bet"), 1000.0, Some("Football wager"))]

  function NotGambling(tx: TxRecord): bool {
    !IsGambling(tx.txType, tx.description)
  }

  /** The history, without gambling records in kids mode. */
  function Transactions(history: seq<TxRecord>, kidsMode: bool): (r: seq<TxRecord>)
    ensures !kidsMode ==> r == history
    ensures kidsMode ==> forall k :: 0 <= k < |r| ==> !IsGambling(r[k].txType, r[k].description)
    ensures IsSubsequence(r, history)
  {
    if kidsMode then
      FilterSubsequence(history, NotGambling);
      Filter(history, NotGambling)
    else
      assert IsSubsequence(history, history) by {
        SubsequenceRefl(history);
      }
      history
  }

  lemma {:induction false} SubsequenceRefl<T>(s: seq<T>)
    ensures IsSubsequence(s, s)
  {
    if s != [] {
      SubsequenceRefl(s[1..]);
    }
  }

  /** Kids mode keeps exactly the non-gambling records. */
  lemma KidsModeKeepsNonGambling(history: seq<TxRecord>, tx: TxRecord)
    ensures tx in Transactions(history, true) <==> tx in history && !IsGambling(tx.txType, tx.description)
  {
    FilterMembers(history, NotGambling, tx);
  }
}
