/**
 * The KYC panel of `src/components/kyc/IssuerKYC.js`: a four-state machine
 * (pending, in progress, completed, failed) driven by the start button and by
 * the verification widget's success and error callbacks.
 */
module IssuerKyc {
  import opened Js

  datatype KycStatus = Pending | InProgress | Completed | Failed

  const InProgressMessage := "KYC verification in progress"
  const CompletedMessage := "KYC verification completed successfully"

  /** The failure banner: the widget's message, or "Unknown error". */
  function FailureMessage(message: Option<string>): (m: string)
    ensures Truthy(message) ==> m == "KYC verification failed: " + message.value
    ensures !Truthy(message) ==> m == "KYC verification failed: Unknown error"
  {
    "KYC verification failed: " + OrElse(message, "Unknown error")
  }

  /** `user?.id || 'temp-user-id'`: the user id handed to the widget. */
  function WidgetUserId(user: Option<Record>): (id: string)
    ensures user.Some? && Truthy(Field(user.value, "id")) ==> id == user.value["id"]
    ensures !(user.Some? && Truthy(Field(user.value, "id"))) ==> id == "temp-user-id"
    ensures id != ""
  {
    OrElse(if user.Some? then Field(user.value, "id") else None, "temp-user-id")
  }

  class Panel {
    const user: Option<Record>
    var showKyc: bool
    var kycStatus: KycStatus
    var statusMessage: string

    /** The reachable states: the panel opens exactly when the process leaves `pending`. */
    predicate Consistent()
      reads this
    {
      (showKyc <==> kycStatus != Pending) && (kycStatus == Pending ==> statusMessage == "")
    }

    /** The widget is on screen only while the process runs. */
    predicate WidgetMounted()
      reads this
    {
      showKyc && kycStatus == InProgress
    }

    /** The "Try Again" button is drawn only in the failed state. */
    predicate RetryOffered()
      reads this
    {
      showKyc && kycStatus == Failed
    }

    /** The start button is drawn while the panel is closed. */
    predicate StartOffered()
      reads this
    {
      !showKyc
    }

    constructor (user: Option<Record>)
      ensures this.user == user && !showKyc && kycStatus == Pending && statusMessage == ""
      ensures Consistent() && StartOffered() && !WidgetMounted()
    {
      this.user := user;
      showKyc := false;
      kycStatus := Pending;
      statusMessage := "";
    }

    /** `handleStartKYC`, behind both the start and the retry button. */
    method Start()
      modifies this`showKyc, this`kycStatus, this`statusMessage
      ensures showKyc && kycStatus == InProgress && statusMessage == InProgressMessage
      ensures Consistent() && WidgetMounted() && !RetryOffered()
    {
      showKyc := true;
      kycStatus := InProgress;
      statusMessage := InProgressMessage;
    }

    /** `handleKYCSuccess`, called by the mounted widget. */
    method Succeed()
      requires WidgetMounted()
      modifies this`kycStatus, this`statusMessage
      ensures kycStatus == Completed && statusMessage == CompletedMessage
      ensures Consistent() && !WidgetMounted() && !RetryOffered() && !StartOffered()
    {
      kycStatus := Completed;
      statusMessage := CompletedMessage;
    }

    /** `handleKYCError(error)`, called by the mounted widget with `error.message`. */
    method Fail(message: Option<string>)
      requires WidgetMounted()
      modifies this`kycStatus, this`statusMessage
      ensures kycStatus == Failed && statusMessage == FailureMessage(message)
      ensures Consistent() && !WidgetMounted() && RetryOffered()
    {
      kycStatus := Failed;
      statusMessage := "KYC verification failed: " + OrElse(message, "Unknown error");
    }

    /** The user id the mounted widget receives. */
    function WidgetUser(): (id: string)
      requires WidgetMounted()
      reads this
      ensures id == WidgetUserId(user)
    {
      WidgetUserId(user)
    }
  }

  /** Once open, the panel offers a retry exactly in the failed state, and completion is final for its buttons. */
  lemma RetryOnlyAfterFailure(p: Panel)
    requires p.Consistent() && p.showKyc
    ensures p.RetryOffered() <==> p.kycStatus == Failed
    ensures p.kycStatus == Completed ==> !p.RetryOffered() && !p.StartOffered() && !p.WidgetMounted()
  {
  }
}
