// The parental-consent routes for children's accounts: request, verify,
// revoke and export of a consent record kept on the user, with an audit
// trail that only grows.

module Coppa {
  import opened Wrappers

  datatype ConsentStatus = Pending | Approved | Rejected | Revoked

  datatype AuditAction = ConsentApproved | ConsentRejected | ConsentRevoked

  datatype AuditEntry = AuditEntry(
    timestamp: int,
    action: AuditAction,
    verificationMethod: Option<string>,
    parentIdentity: Option<string>,
    reason: Option<string>,
    ipAddress: Option<string>,
    userAgent: Option<string>)

  /** The `coppaConsent` sub-document; a field that was never set is `None`. */
  datatype Consent = Consent(
    status: ConsentStatus,
    parentEmail: Option<string>,
    requestedAt: Option<int>,
    verifiedAt: Option<int>,
    revokedAt: Option<int>,
    verificationMethod: Option<string>,
    parentIdentity: Option<string>,
    auditTrail: seq<AuditEntry>)

  datatype User = User(
    email: string,
    age: real,
    isUnder13: bool,
    kidsMode: bool,
    accountRestricted: bool,
    consent: Option<Consent>)

  datatype Reply = Done(success: bool, message: string) | Failed(status: int, error: string)

  /** What the export route returns. */
  datatype ConsentRecord = ConsentRecord(
    childEmail: string,
    childAge: real,
    parentEmail: Option<string>,
    parentIdentity: Option<string>,
    consentStatus: ConsentStatus,
    verificationMethod: Option<string>,
    requestedAt: Option<int>,
    verifiedAt: Option<int>,
    revokedAt: Option<int>,
    auditTrail: seq<AuditEntry>,
    exportedAt: int)

  /** JavaScript truthiness of an optional string. */
  predicate Truthy(s: Option<string>) {
    s.Some? && s.value != ""
  }

  /** `x || null`. */
  function OrNull(s: Option<string>): (r: Option<string>)
    ensures r.Some? <==> Truthy(s)
    ensures r.Some? ==> r == s
  {
    if Truthy(s) then s else None
  }

  /** `x || y` on optional strings. */
  function OrElse(s: Option<string>, t: Option<string>): (r: Option<string>)
    ensures Truthy(s) ==> r == s
    ensures !Truthy(s) ==> r == t
  {
    if Truthy(s) then s else t
  }

  /** `user.coppaConsent?.auditTrail || []`. */
  function Trail(u: User): seq<AuditEntry> {
    if u.consent.Some? then u.consent.value.auditTrail else []
  }

  /** `user.coppaConsent?.parentEmail`. */
  function StoredParentEmail(u: User): Option<string> {
    if u.consent.Some? then u.consent.value.parentEmail else None
  }

  /** The upsert of request-consent: the age, the under-13 flag, kids mode
      and the pending consent fields are set; every other consent field,
      the audit trail included, is kept. */
  function Requested(existing: Option<User>, childEmail: string, childAge: real,
                     parentEmail: Option<string>, now: int): (u: User)
    ensures u.email == childEmail && u.age == childAge
    ensures u.isUnder13 <==> childAge < 13.0
    ensures u.kidsMode
    ensures u.consent.Some? && u.consent.value.status == Pending
    ensures u.consent.value.parentEmail == OrNull(parentEmail) && u.consent.value.requestedAt == Some(now)
    ensures existing.Some? ==>
      Trail(u) == Trail(existing.value) && u.accountRestricted == existing.value.accountRestricted
    ensures existing.None? ==> Trail(u) == [] && !u.accountRestricted
  {
    var base := if existing.Some? then existing.value else User(childEmail, childAge, false, false, false, None);
    var c := if base.consent.Some? then base.consent.value else Consent(Pending, None, None, None, None, None, None, []);
    base.(email := childEmail, age := childAge, isUnder13 := childAge < 13.0, kidsMode := true,
          consent := Some(c.(status := Pending, parentEmail := OrNull(parentEmail), requestedAt := Some(now))))
  }

  /** The consent record that verify-consent writes: a new sub-document, so
      only the listed fields survive, with one more audit entry. */
  function Verified(u: User, parentConfirmed: bool, verificationMethod: string,
                    parentIdentity: Option<string>, entry: AuditEntry, now: int): (v: User)
    ensures v.consent.Some?
    ensures v.consent.value.auditTrail == Trail(u) + [entry]
    ensures v.consent.value.status == (if parentConfirmed then Approved else Rejected)
    ensures v.consent.value.verifiedAt == Some(now)
    ensures v.consent.value.parentEmail == OrNull(StoredParentEmail(u))
    ensures parentConfirmed ==> v.kidsMode
    ensures !parentConfirmed ==> v.kidsMode == u.kidsMode
    ensures v.(consent := u.consent, kidsMode := u.kidsMode) == u
  {
    if parentConfirmed then
      u.(consent := Some(Consent(Approved, OrNull(StoredParentEmail(u)), None, Some(now), None,
                                 Some(verificationMethod), parentIdentity, Trail(u) + [entry])),
         kidsMode := true)
    else
      u.(consent := Some(Consent(Rejected, OrNull(StoredParentEmail(u)), None, Some(now), None,
                                 None, None, Trail(u) + [entry])))
  }

  /** The revoked user: status revoked with the time, one more audit entry,
      the other consent fields kept, and the account restricted. */
  function RevokedUser(u: User, entry: AuditEntry, now: int): (v: User)
    requires u.consent.Some?
    ensures v.consent.Some? && v.consent.value.status == Revoked && v.consent.value.revokedAt == Some(now)
    ensures v.consent.value.auditTrail == Trail(u) + [entry]
    ensures v.consent.value.(status := u.consent.value.status, revokedAt := u.consent.value.revokedAt,
                             auditTrail := u.consent.value.auditTrail) == u.consent.value
    ensures v.kidsMode && v.accountRestricted
    ensures v.email == u.email && v.age == u.age && v.isUnder13 == u.isUnder13
  {
    var c := u.consent.value;
    u.(consent := Some(c.(status := Revoked, revokedAt := Some(now), auditTrail := c.auditTrail + [entry])),
       kidsMode := true, accountRestricted := true)
  }

  /** The parent check of revoke and export: the supplied address must be
      the stored one. */
  predicate ParentMatches(u: User, parentEmail: string) {
    StoredParentEmail(u) == Some(parentEmail)
  }

  function Export(u: User, now: int): (r: ConsentRecord)
    requires u.consent.Some?
    ensures r.childEmail == u.email && r.childAge == u.age && r.exportedAt == now
    ensures r.consentStatus == u.consent.value.status && r.auditTrail == Trail(u)
    ensures r.parentEmail == StoredParentEmail(u)
  {
    var c := u.consent.value;
    ConsentRecord(u.email, u.age, c.parentEmail, c.parentIdentity, c.status, c.verificationMethod,
                  c.requestedAt, c.verifiedAt, c.revokedAt, c.auditTrail, now)
  }

  /** The users collection, keyed by e-mail. */
  class ConsentStore {
    var users: map<string, User>

    ghost predicate Valid()
      reads this
    {
      forall e :: e in users ==> users[e].email == e
    }

    constructor(initial: map<string, User>)
      requires forall e :: e in initial ==> initial[e].email == e
      ensures Valid() && users == initial
    {
      users := initial;
    }

    /** POST /request-consent. An absent or zero age, or an absent or empty
        child address, is a 400. */
    method RequestConsent(childEmail: Option<string>, childAge: Option<real>, parentEmail: Option<string>, now: int)
      returns (r: Reply)
      requires Valid()
      modifies this
      ensures Valid()
      ensures !Truthy(childEmail) || childAge.None? || childAge.value == 0.0 ==>
        r == Failed(400, "childEmail and childAge required") && users == old(users)
      ensures Truthy(childEmail) && childAge.Some? && childAge.value != 0.0 ==>
        r.Done? && users == old(users)[childEmail.value := Requested(
          if childEmail.value in old(users) then Some(old(users)[childEmail.value]) else None,
          childEmail.value, childAge.value, parentEmail, now)]
    {
      if !Truthy(childEmail) || childAge.None? || childAge.value == 0.0 {
        return Failed(400, "childEmail and childAge required");
      }
      var email := childEmail.value;
      var existing := if email in users then Some(users[email]) else None;
      users := users[email := Requested(existing, email, childAge.value, parentEmail, now)];
      r := Done(true, "Parental consent requested. Please verify via parent email.");
    }

    /** POST /verify-consent. The verification token is required but not
        checked further; `verificationMethod` defaults to `email_link`. */
    method VerifyConsent(childEmail: Option<string>, parentConfirmed: bool, verificationToken: Option<string>,
                         verificationMethod: Option<string>, parentIdentity: Option<string>,
                         ipAddress: Option<string>, userAgent: Option<string>, now: int)
      returns (r: Reply)
      requires Valid()
      modifies this
      ensures Valid()
      ensures !Truthy(childEmail) || !Truthy(verificationToken) ==>
        r == Failed(400, "childEmail and verificationToken required") && users == old(users)
      ensures Truthy(childEmail) && Truthy(verificationToken) && childEmail.value !in old(users) ==>
        r == Failed(404, "user not found") && users == old(users)
      ensures Truthy(childEmail) && Truthy(verificationToken) && childEmail.value in old(users) ==>
        var u := old(users)[childEmail.value];
        var method_ := if verificationMethod.Some? then verificationMethod.value else "email_link";
        var entry := AuditEntry(now, if parentConfirmed then ConsentApproved else ConsentRejected,
                                Some(method_), OrElse(parentIdentity, StoredParentEmail(u)), None, ipAddress, userAgent);
        r == Done(parentConfirmed, if parentConfirmed then "Parental consent verified" else "Parental consent rejected")
        && users == old(users)[childEmail.value := Verified(u, parentConfirmed, method_, parentIdentity, entry, now)]
    {
      if !Truthy(childEmail) || !Truthy(verificationToken) {
        return Failed(400, "childEmail and verificationToken required");
      }
      var email := childEmail.value;
      if email !in users {
        return Failed(404, "user not found");
      }
      var u := users[email];
      var method_ := if verificationMethod.Some? then verificationMethod.value else "email_link";
      var entry := AuditEntry(now, if parentConfirmed then ConsentApproved else ConsentRejected,
                              Some(method_), OrElse(parentIdentity, StoredParentEmail(u)), None, ipAddress, userAgent);
      users := users[email := Verified(u, parentConfirmed, method_, parentIdentity, entry, now)];
      if parentConfirmed {
        r := Done(true, "Parental consent verified");
      } else {
        r := Done(false, "Parental consent rejected");
      }
    }

    /** POST /revoke-consent. */
    method RevokeConsent(childEmail: Option<string>, parentEmail: Option<string>, reason: Option<string>,
                         ipAddress: Option<string>, userAgent: Option<string>, now: int)
      returns (r: Reply)
      requires Valid()
      modifies this
      ensures Valid()
      ensures !Truthy(childEmail) || !Truthy(parentEmail) ==>
        r == Failed(400, "childEmail and parentEmail required") && users == old(users)
      ensures Truthy(childEmail) && Truthy(parentEmail) && childEmail.value !in old(users) ==>
        r == Failed(404, "user not found") && users == old(users)
      ensures (Truthy(childEmail) && Truthy(parentEmail) && childEmail.value in old(users)
        && !ParentMatches(old(users)[childEmail.value], parentEmail.value)) ==>
        r == Failed(403, "Unauthorized: parent email mismatch") && users == old(users)
      ensures (Truthy(childEmail) && Truthy(parentEmail) && childEmail.value in old(users)
        && ParentMatches(old(users)[childEmail.value], parentEmail.value)) ==>
        var entry := AuditEntry(now, ConsentRevoked, None, None,
                                OrElse(reason, Some("Parent revoked consent")), ipAddress, userAgent);
        r == Done(true, "Parental consent revoked. Account access restricted.")
        && users == old(users)[childEmail.value := RevokedUser(old(users)[childEmail.value], entry, now)]
    {
      if !Truthy(childEmail) || !Truthy(parentEmail) {
        return Failed(400, "childEmail and parentEmail required");
      }
      var email := childEmail.value;
      if email !in users {
        return Failed(404, "user not found");
      }
      var u := users[email];
      if !ParentMatches(u, parentEmail.value) {
        return Failed(403, "Unauthorized: parent email mismatch");
      }
      var entry := AuditEntry(now, ConsentRevoked, None, None,
                              OrElse(reason, Some("Parent revoked consent")), ipAddress, userAgent);
      users := users[email := RevokedUser(u, entry, now)];
      r := Done(true, "Parental consent revoked. Account access restricted.");
    }

    /** GET /export-consent/:childEmail: the record, or the status of the
        refusal. Nothing is changed. */
    function ExportConsent(childEmail: string, parentEmail: Option<string>, now: int): (r: Result<ConsentRecord, int>)
      reads this
      ensures !Truthy(parentEmail) ==> r == Err(400)
      ensures Truthy(parentEmail) && childEmail !in users ==> r == Err(404)
      ensures r.Ok? <==>
        (Truthy(parentEmail) && childEmail in users && ParentMatches(users[childEmail], parentEmail.value))
      ensures r.Ok? ==> r.value == Export(users[childEmail], now)
    {
      if !Truthy(parentEmail) then Err(400)
      else if childEmail !in users then Err(404)
      else if !ParentMatches(users[childEmail], parentEmail.value) then Err(403)
      else Ok(Export(users[childEmail], now))
    }
  }

  /** Request, verify and revoke keep every earlier audit entry in front. */
  lemma AuditTrailOnlyGrows(u: User, childAge: real, parentEmail: Option<string>, parentConfirmed: bool,
                            m: string, pid: Option<string>, entry: AuditEntry, now: int)
    ensures Trail(Requested(Some(u), u.email, childAge, parentEmail, now)) == Trail(u)
    ensures Trail(u) <= Trail(Verified(u, parentConfirmed, m, pid, entry, now))
    ensures u.consent.Some? ==> Trail(u) <= Trail(RevokedUser(u, entry, now))
    ensures |Trail(Verified(u, parentConfirmed, m, pid, entry, now))| == |Trail(u)| + 1
  {
  }

  /** A parent who is refused at revoke is refused at export too, and the
      other way round. */
  lemma RevokeAndExportShareTheCheck(u: User, parentEmail: string)
    requires parentEmail != ""
    ensures ParentMatches(u, parentEmail) <==> u.consent.Some? && u.consent.value.parentEmail == Some(parentEmail)
  {
  }

  /** After a revoke, a later request-consent reopens the consent as pending
      but keeps the account restricted. */
  lemma RequestAfterRevokeStaysRestricted(u: User, entry: AuditEntry, childAge: real,
                                          parentEmail: Option<string>, t1: int, t2: int)
    requires u.consent.Some?
    ensures var v := Requested(Some(RevokedUser(u, entry, t1)), u.email, childAge, parentEmail, t2);
      v.accountRestricted && v.consent.value.status == Pending && v.consent.value.revokedAt == Some(t1)
  {
  }

  /** Approving drops the request time the pending record had. */
  lemma ApprovalDropsRequestTime(u: User, m: string, pid: Option<string>, entry: AuditEntry, now: int)
    ensures Verified(u, true, m, pid, entry, now).consent.value.requestedAt.None?
    ensures Verified(u, true, m, pid, entry, now).consent.value.revokedAt.None?
  {
  }
}
