/**
 * The issuer's wallet screen of `src/components/wallet/IssuerWallet.js`:
 * loading the wallet (and, when it has an address, its balance and
 * transactions), turning a failed load into either the wallet-creation
 * screen or an error message, and the send-tokens form.
 */
module IssuerWallet {
  import opened Js
  import opened ApiClient

  datatype WalletRecord = WalletRecord(address: Option<string>, details: Record)
  datatype Tx = Tx(hash: string, to: string, value: string, token: string, status: string)
  /** The transaction answer: `transactions`, possibly absent. */
  datatype TxPage = TxPage(transactions: Option<seq<Tx>>)
  /** The create answer: `wallet`, possibly absent. */
  datatype CreateBody = CreateBody(wallet: Option<WalletRecord>)

  /** What a failed wallet load leads to: the creation screen, or an error message. */
  datatype LoadFailure = NoWallet | Fail(message: string)

  const AuthMessage := "Authentication error. Please sign in again."
  const PermissionMessage := "You do not have permission to access this wallet. Issuer role required."
  const ConnectionMessage := "Failed to connect to server. Please check your connection."

  /**
   * The `catch` of `fetchWalletData`: 404 and 500 lead to wallet creation with
   * no error; 401 and 403 have their own messages; any other answer shows the
   * server's message (or "Unknown error") after "Error: "; no answer at all
   * is a connection failure.
   */
  function ClassifyLoadError(e: ApiError): (f: LoadFailure)
    ensures f == NoWallet <==> e.status == Some(404) || e.status == Some(500)
    ensures e.status == Some(401) ==> f == Fail(AuthMessage)
    ensures e.status == Some(403) ==> f == Fail(PermissionMessage)
    ensures e.status.Some? && e.status.value !in {401, 403, 404, 500} ==>
      f == Fail("Error: " + OrElse(e.message, "Unknown error"))
    ensures e.status.None? ==> f == Fail(ConnectionMessage)
  {
    match e.status
    case None => Fail(ConnectionMessage)
    case Some(status) =>
      if status == 404 then NoWallet
      else if status == 401 then Fail(AuthMessage)
      else if status == 403 then Fail(PermissionMessage)
      else if status == 500 then NoWallet
      else Fail("Error: " + OrElse(e.message, "Unknown error"))
  }

  /** Only a missing connection or an unexpected status produces a message the three fixed ones do not cover. */
  lemma ServerMessagesAreLabelled(e: ApiError)
    requires ClassifyLoadError(e).Fail?
    requires ClassifyLoadError(e).message !in {AuthMessage, PermissionMessage, ConnectionMessage}
    ensures e.status.Some? && e.status.value !in {401, 403, 404, 500}
    ensures |ClassifyLoadError(e).message| >= 7 && ClassifyLoadError(e).message[..7] == "Error: "
  {
  }

  type Form = map<string, string>

  /** The send form's initial (and post-send) contents. */
  const InitialSendForm: Form := map["to" := "", "amount" := "", "token" := "eth", "chain" := "polygon-mumbai"]

  datatype SendState = Sending | SendSucceeded | SendFailed
  datatype SendStatus = SendStatus(state: SendState, message: string)

  const SendingMessage := "Sending transaction..."
  const SentMessage := "Transaction submitted successfully!"

  class WalletScreen {
    var walletData: Option<WalletRecord>
    var balanceData: Option<Record>
    var transactions: seq<Tx>
    var loading: bool
    var error: Option<string>
    var isCreatingWallet: bool
    var sendForm: Form
    var sendStatus: Option<SendStatus>

    constructor ()
      ensures walletData == None && balanceData == None && transactions == [] && loading && error == None
      ensures !isCreatingWallet && sendForm == InitialSendForm && sendStatus == None
    {
      walletData := None;
      balanceData := None;
      transactions := [];
      loading := true;
      error := None;
      isCreatingWallet := false;
      sendForm := InitialSendForm;
      sendStatus := None;
    }

    /** `fetchBalanceData`: a failure is only logged. */
    method FetchBalance(ex: Exchange<Record>)
      modifies this`balanceData
      ensures balanceData == if ex.Answered? && IsSuccess(ex.status) then Some(ex.data) else old(balanceData)
    {
      var r := Settle(ex);
      if r.Resolved? {
        balanceData := Some(r.data);
      }
    }

    /** `fetchTransactions`: `transactions || []`; a failure is only logged. */
    method FetchTransactions(ex: Exchange<TxPage>)
      modifies this`transactions
      ensures transactions ==
        if ex.Answered? && IsSuccess(ex.status)
        then (if ex.data.transactions.Some? then ex.data.transactions.value else [])
        else old(transactions)
    {
      var r := Settle(ex);
      if r.Resolved? {
        transactions := if r.data.transactions.Some? then r.data.transactions.value else [];
      }
    }

    /**
     * `fetchWalletData`, with the wallet GET answered by `ex` and the two side
     * requests (made only for a wallet with an address) by `balanceEx` and `txEx`.
     * Every path ends with `loading == false`.
     */
    method FetchWalletData(ex: Exchange<Option<WalletRecord>>, balanceEx: Exchange<Record>, txEx: Exchange<TxPage>)
      modifies this`walletData, this`balanceData, this`transactions, this`loading, this`error
      ensures !loading
      ensures ex.Answered? && IsSuccess(ex.status) ==> walletData == ex.data && error == old(error)
      ensures !(ex.Answered? && IsSuccess(ex.status) && ex.data.Some? && Truthy(ex.data.value.address)) ==>
        balanceData == old(balanceData) && transactions == old(transactions)
      ensures ex.Answered? && IsSuccess(ex.status) && ex.data.Some? && Truthy(ex.data.value.address) ==>
        && balanceData == (if balanceEx.Answered? && IsSuccess(balanceEx.status) then Some(balanceEx.data) else old(balanceData))
        && transactions == (
          if txEx.Answered? && IsSuccess(txEx.status)
          then (if txEx.data.transactions.Some? then txEx.data.transactions.value else [])
          else old(transactions))
      ensures !(ex.Answered? && IsSuccess(ex.status)) ==>
        match ClassifyLoadError(Settle(ex).error)
        case NoWallet => walletData == None && error == old(error)
        case Fail(message) => walletData == old(walletData) && error == Some(message)
    {
      loading := true;
      var r := Settle(ex);
      match r
      case Resolved(data) =>
        walletData := data;
        if data.Some? && Truthy(data.value.address) {
          FetchBalance(balanceEx);
          FetchTransactions(txEx);
        }
        loading := false;
      case Rejected(e) =>
        match ClassifyLoadError(e)
        case NoWallet =>
          walletData := None;
          loading := false;
        case Fail(message) =>
          error := Some(message);
          loading := false;
    }

    /** `createWallet`, with the POST answered by `ex` (the refresh that follows is a separate `FetchWalletData`). */
    method CreateWallet(ex: Exchange<CreateBody>)
      modifies this`walletData, this`error, this`isCreatingWallet
      ensures !isCreatingWallet
      ensures ex.Answered? && IsSuccess(ex.status) ==> walletData == ex.data.wallet && error == old(error)
      ensures !(ex.Answered? && IsSuccess(ex.status)) ==>
        walletData == old(walletData) && error == Some("Failed to create wallet")
    {
      isCreatingWallet := true;
      var r := Settle(ex);
      if r.Resolved? {
        walletData := r.data.wallet;
      } else {
        error := Some("Failed to create wallet");
      }
      isCreatingWallet := false;
    }

    /** `handleSendFormChange`: only the named field takes the new value. */
    method HandleSendFormChange(name: string, value: string)
      modifies this`sendForm
      ensures name in sendForm && sendForm[name] == value
      ensures forall k :: k != name ==> (k in sendForm <==> k in old(sendForm))
      ensures forall k :: k != name && k in sendForm ==> sendForm[k] == old(sendForm)[k]
    {
      sendForm := sendForm[name := value];
    }

    /**
     * `handleSendTokens`, with the POST of the current form answered by `ex`:
     * success resets the form; failure keeps it and shows the server's
     * message or the default.
     */
    method HandleSendTokens(ex: Exchange<()>) returns (posted: Form)
      modifies this`sendForm, this`sendStatus
      ensures posted == old(sendForm)
      ensures ex.Answered? && IsSuccess(ex.status) ==>
        sendForm == InitialSendForm && sendStatus == Some(SendStatus(SendSucceeded, SentMessage))
      ensures !(ex.Answered? && IsSuccess(ex.status)) ==>
        && sendForm == old(sendForm)
        && sendStatus == Some(SendStatus(SendFailed,
             OrElse(if ex.Answered? then ex.message else None, "Failed to send transaction")))
    {
      sendStatus := Some(SendStatus(Sending, SendingMessage));
      posted := sendForm;
      var r := Settle(ex);
      match r
      case Resolved(_) =>
        sendStatus := Some(SendStatus(SendSucceeded, SentMessage));
        sendForm := InitialSendForm;
      case Rejected(e) =>
        sendStatus := Some(SendStatus(SendFailed, OrElse(e.message, "Failed to send transaction")));
    }
  }
}
