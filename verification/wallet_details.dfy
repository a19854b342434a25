/**
 * The wallet detail view of `src/components/dashboard/AdminWalletDetails.js`:
 * the wallet, then its balances and transactions, each replaced only when the
 * answer has the expected shape; rows classify a transaction as sent or
 * received and colour its status.
 */
module WalletDetails {
  import opened Js
  import opened ApiClient
  import AdminWallets

  /** `truncateAddress` of this view: 8 leading and 6 trailing characters. */
  function TruncateAddress(address: Option<string>): (r: string)
    ensures !Truthy(address) ==> r == "N/A"
    ensures Truthy(address) ==>
      var a := address.value;
      r == a[..if |a| < 8 then |a| else 8] + "..." + a[if |a| < 6 then 0 else |a| - 6..]
  {
    AdminWallets.Truncate(address, 8, 6)
  }

  datatype Flow = Sent | Received

  /** A transaction is sent by this wallet when its sender is the wallet's address, ignoring letter case. */
  function FlowOf(from: string, address: string): (f: Flow)
    ensures f == Sent <==> ToLower(from) == ToLower(address)
  {
    if ToLower(from) == ToLower(address) then Sent else Received
  }

  /** The classification does not depend on how either address is capitalised. */
  lemma FlowIgnoresCase(from: string, address: string)
    ensures FlowOf(ToUpper(from), address) == FlowOf(from, address)
    ensures FlowOf(from, ToUpper(address)) == FlowOf(from, address)
    ensures FlowOf(ToLower(from), ToLower(address)) == FlowOf(from, address)
  {
    ToLowerOfToUpper(from);
    ToLowerOfToUpper(address);
    ToLowerIdempotent(from);
    ToLowerIdempotent(address);
  }

  /** A wallet's own outgoing transfer to itself still counts as sent. */
  lemma SelfTransferIsSent(address: string)
    ensures FlowOf(address, address) == Sent
  {
  }

  datatype Tone = Green | Yellow | Red

  /** The status colour: CONFIRMED green, PENDING yellow, anything else red. */
  function StatusTone(status: string): (t: Tone)
    ensures t == Green <==> status == "CONFIRMED"
    ensures t == Yellow <==> status == "PENDING"
  {
    if status == "CONFIRMED" then Green else if status == "PENDING" then Yellow else Red
  }

  datatype Balance = Balance(token: string, amount: string)
  datatype Tx = Tx(hash: string, from: string, value: string, token: string, status: string)
  datatype WalletInfo = WalletInfo(address: string, details: Record)

  /** A balance answer: an empty body, or an object with or without `balances`. */
  datatype BalanceBody = EmptyBody | BalanceBody(balances: Option<seq<Balance>>)
  /** A transaction answer: an array, or anything else. */
  datatype TxBody = TxList(txs: seq<Tx>) | NotAList

  datatype View = Spinner | ErrorView(message: string) | Nothing | Detail(wallet: WalletInfo)

  const LoadError := "Failed to load wallet details. Please try again later."

  class Details {
    const walletId: int
    var wallet: Option<WalletInfo>
    var balanceData: seq<Balance>
    var transactions: seq<Tx>
    var loading: bool
    var error: Option<string>

    constructor (walletId: int)
      ensures this.walletId == walletId && wallet == None && balanceData == [] && transactions == []
      ensures loading && error == None
    {
      this.walletId := walletId;
      wallet := None;
      balanceData := [];
      transactions := [];
      loading := true;
      error := None;
    }

    /** The render guard chain. */
    function Screen(): (v: View)
      reads this
      ensures v == Nothing <==> !loading && !Truthy(error) && wallet.None?
    {
      if loading then Spinner
      else if Truthy(error) then ErrorView(error.value)
      else if wallet.None? then Nothing
      else Detail(wallet.value)
    }

    /** `fetchBalanceData`: balances change only on a 2xx body carrying `balances`; errors are swallowed. */
    method FetchBalance(ex: Exchange<BalanceBody>)
      modifies this`balanceData
      ensures balanceData ==
        if ex.Answered? && IsSuccess(ex.status) && ex.data.BalanceBody? && ex.data.balances.Some?
        then ex.data.balances.value else old(balanceData)
    {
      var r := Settle(ex);
      if r.Resolved? && r.data.BalanceBody? && r.data.balances.Some? {
        balanceData := r.data.balances.value;
      }
    }

    /** `fetchTransactions`: transactions change only on a 2xx array; errors are swallowed. */
    method FetchTransactions(ex: Exchange<TxBody>)
      modifies this`transactions
      ensures transactions ==
        if ex.Answered? && IsSuccess(ex.status) && ex.data.TxList? then ex.data.txs else old(transactions)
    {
      var r := Settle(ex);
      if r.Resolved? && r.data.TxList? {
        transactions := r.data.txs;
      }
    }

    /**
     * `fetchWalletDetails` (also the "Try Again" button): the wallet, then both
     * side fetches (which never fail the whole); on failure of the wallet
     * itself only the error is set. `error` is never cleared, so once set the
     * error screen stays, even after a successful retry.
     */
    method FetchWalletDetails(walletEx: Exchange<WalletInfo>, balanceEx: Exchange<BalanceBody>, txEx: Exchange<TxBody>)
      modifies this`wallet, this`balanceData, this`transactions, this`loading, this`error
      ensures !loading
      ensures walletEx.Answered? && IsSuccess(walletEx.status) ==>
        && wallet == Some(walletEx.data) && error == old(error)
        && balanceData == (if balanceEx.Answered? && IsSuccess(balanceEx.status) && balanceEx.data.BalanceBody?
                             && balanceEx.data.balances.Some? then balanceEx.data.balances.value else old(balanceData))
        && transactions == (if txEx.Answered? && IsSuccess(txEx.status) && txEx.data.TxList?
                              then txEx.data.txs else old(transactions))
      ensures !(walletEx.Answered? && IsSuccess(walletEx.status)) ==>
        && wallet == old(wallet) && balanceData == old(balanceData) && transactions == old(transactions)
        && error == Some(LoadError)
      ensures !Truthy(old(error)) && walletEx.Answered? && IsSuccess(walletEx.status) ==>
        Screen() == Detail(walletEx.data)
      ensures Truthy(old(error)) ==> Screen().ErrorView?
    {
      loading := true;
      var r := Settle(walletEx);
      if r.Resolved? {
        wallet := Some(r.data);
        FetchBalance(balanceEx);
        FetchTransactions(txEx);
        loading := false;
      } else {
        error := Some(LoadError);
        loading := false;
      }
    }
  

    /**
     * `fetchWalletDetails` as evidently intended: a successful wallet answer
     * also clears an earlier error, so a retry that succeeds shows the wallet.
     */
    method FetchWalletDetailsClearingError(walletEx: Exchange<WalletInfo>, balanceEx: Exchange<BalanceBody>, txEx: Exchange<TxBody>)
      modifies this`wallet, this`balanceData, this`transactions, this`loading, this`error
      ensures !loading
      ensures walletEx.Answered? && IsSuccess(walletEx.status) ==>
        && wallet == Some(walletEx.data) && error == None
        && balanceData == (if balanceEx.Answered? && IsSuccess(balanceEx.status) && balanceEx.data.BalanceBody?
                             && balanceEx.data.balances.Some? then balanceEx.data.balances.value else old(balanceData))
        && transactions == (if txEx.Answered? && IsSuccess(txEx.status) && txEx.data.TxList?
                              then txEx.data.txs else old(transactions))
      ensures !(walletEx.Answered? && IsSuccess(walletEx.status)) ==>
        && wallet == old(wallet) && balanceData == old(balanceData) && transactions == old(transactions)
        && error == Some(LoadError)
      ensures walletEx.Answered? && IsSuccess(walletEx.status) ==> Screen() == Detail(walletEx.data)
    {
      loading := true;
      var r := Settle(walletEx);
      if r.Resolved? {
        error := None;
        wallet := Some(r.data);
        FetchBalance(balanceEx);
        FetchTransactions(txEx);
        loading := false;
      } else {
        error := Some(LoadError);
        loading := false;
      }
    }
  }
}
