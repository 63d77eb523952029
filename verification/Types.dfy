/** The domain's records. Instants are integer milliseconds; optional fields are `Option`s. */
module Types {
  type Time = int

  datatype Option<+T> = None | Some(value: T)

  datatype Result<+T> = Ok(value: T) | Err(error: Error)

  /** The DomainError codes the modelled operations can raise. */
  datatype Error =
    | VersionNotFound
    | CustomerNotFound
    | VersionImmutable
    | VersionNotCurrent
    | AlreadyAccepted
    | ChangeSummaryRequired
    | ConsentTextRequired
    | ConsentTextMismatch
    | UnknownAudience
    | UnknownDocumentType
    | RoleMismatch
    | ObjectionNotApplicable
    | ObjectionPeriodExpired
    | InvalidState

  datatype Mode = Active | Passive

  datatype Status = Draft | Published | Retired

  datatype StateValue =
    | PendingNotification
    | Notified
    | Accepted
    | Objected
    | ExpiredBlocking
    | Superseded

  datatype Method = ActiveConsent | Tacit | Import

  datatype Channel = Portal | Admin | System | Link

  /** One rollout state per customer and version; the pair is the row's unique key. */
  datatype Key = Key(customer: nat, version: nat)

  datatype Document = Document(docType: string, audience: string)

  datatype Version = Version(
    document: nat,
    status: Status,
    mode: Mode,
    objectionPeriodDays: Option<int>,
    hardDeadlineAt: Option<Time>,
    changeSummary: string,
    consentText: Option<string>,
    validFrom: Time,
    publishedAt: Option<Time>)

  datatype Customer = Customer(
    externalRef: string,
    firstName: string,
    lastName: string,
    companyName: Option<string>,
    roles: seq<string>,
    contactEmails: seq<string>,
    deletedAt: Option<Time>)

  /** A CustomerVersionState row, without its key. */
  datatype Row = Row(
    state: StateValue,
    notifiedAt: Option<Time>,
    deadlineAt: Option<Time>,
    remindersSent: nat,
    carryOverBlocking: bool,
    notificationDueAt: Option<Time>)

  datatype Acceptance = Acceptance(
    how: Method,
    channel: Channel,
    acceptedAt: Time,
    consentText: Option<string>)

  datatype Objection = Objection(key: Key, objectedAt: Time)

  /**
   * The contents of the store. Identifiers are numbers handed out in creation order, so ascending
   * order is the insertion order of the repositories' maps. `acceptances` holds the effective
   * acceptance of each pair (at most one, by the partial unique index); `audiences` the known keys.
   */
  datatype Db = Db(
    audiences: set<string>,
    documents: map<nat, Document>,
    versions: map<nat, Version>,
    customers: map<nat, Customer>,
    states: map<Key, Row>,
    acceptances: map<Key, Acceptance>,
    objections: seq<Objection>)

  /** What an operation leaves behind: the new store and the error it raised, if any. */
  datatype Done = Done(db: Db, error: Option<Error>)

  /** A whitespace character in the sense of the source's trim() and `\s`. */
  predicate IsSpace(c: char) {
    c in " \t\n\r" || c as int in {11, 12, 160, 5760, 8232, 8233, 8239, 8287, 12288, 65279}
    || 8192 <= c as int <= 8202
  }

  predicate Blank(s: string) {
    forall i | 0 <= i < |s| :: IsSpace(s[i])
  }
}
