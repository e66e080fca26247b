/** Leaf vocabulary shared by the page document, its transport and the lease protocol. */
module Outcomes {
  datatype Option<+T> = None | Some(value: T)
  datatype Result<+T, +E> = Ok(value: T) | Err(error: E)

  /** A UTF-16 code unit. */
  type Unit = u: int | 0 <= u < 0x1_0000
  type Text = seq<Unit>

  type RequestId(==, !new)
  type Session = Option<string>

  /** The reasons the code branches on; every other reason text is `Other`. */
  datatype Reason =
    | UnmountedDocument | CallerStopped | StaleDocument | UserNavigation | StaleSession | ExpiredRequest
    | SettledRequest | Busy | UnsupportedDocument | RequestIdConflict | ReceiptCapacity | InvalidFiles
    | PanelLoadFailed | ViewerLoadFailed | MissingEntity | UnsupportedTarget | OwnerFailed
    | TransportFailed | LiveDocumentUnavailable | StaleRegistration | StaleChallenge
    | InvalidChallenge | InvalidRegistration | RecoveryExhausted | CommandMismatch
    | Other(text: string)

  /** An `AppActionRefusal` with its reason, or any other exception. */
  datatype Error = Refused(reason: Reason) | Thrown

  datatype Status = Completed | NoOp | Blocked | Failed | UnknownOutcome
  datatype Visible = Applied | Unchanged | UnknownView
  datatype Saved = Stored | SaveFailed | UnknownSave | NotRequested

  /** `rest` stands for the fields that are only copied (settings, viewer, import, ...). */
  datatype Outcome = Outcome(status: Status, reason: Option<Reason>, visible: Option<Visible>, saved: Option<Saved>, rest: string)

  datatype Request = Request(requestId: RequestId, documentId: string, documentEpoch: string, expectedSession: Session,
                             actionId: string, args: string, expiresAt: int)

  datatype Receipt = Receipt(outcome: Outcome, requestId: Option<RequestId>, actionId: Option<string>)

  predicate GoonAction(actionId: string) {
    "goon." <= actionId
  }
}
