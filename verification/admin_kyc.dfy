/**
 * The KYC list of `src/components/dashboard/AdminKYCVerifications.js`: the
 * list comes either from the local store or from the identity-verification
 * vendor through the backend, and each row reads its fields differently
 * depending on that source.
 */
module AdminKyc {
  import opened Js
  import opened ApiClient

  datatype DataSource = Local | Vendor

  /** The vendor's review block: `review.reviewStatus`. */
  datatype Review = Review(reviewStatus: Option<string>)

  /** One entry of either list, with the fields the rows read. */
  datatype Verification = Verification(
    id: string,
    applicantId: Option<string>,
    reviewStatus: Option<string>,
    review: Option<Review>,
    kycType: Option<string>,
    user: Option<Record>,
    externalUserId: Option<string>)

  const ListPath := "/admin/kyc-verifications"
  const UserQuery := "?userId="

  /** The local list URL, narrowed to one user when one is selected. */
  function LocalListUrl(selectedUserId: string): (url: string)
    ensures |url| >= |ListPath| && url[..|ListPath|] == ListPath
    ensures url == ListPath <==> selectedUserId == ""
  {
    if selectedUserId != "" then ListPath + UserQuery + selectedUserId else ListPath
  }

  /** The user a local list URL is narrowed to, if any. */
  function SelectedUserOf(url: string): Option<string>
  {
    var prefix := ListPath + UserQuery;
    if |url| > |prefix| && url[..|prefix|] == prefix then Some(url[|prefix|..]) else None
  }

  /** The selected user can be read back from the URL; no selection gives the bare list path. */
  lemma LocalListUrlRoundTrip(selectedUserId: string)
    ensures SelectedUserOf(LocalListUrl(selectedUserId)) == if selectedUserId == "" then None else Some(selectedUserId)
    ensures selectedUserId == "" ==> LocalListUrl(selectedUserId) == ListPath
  {
    var prefix := ListPath + UserQuery;
    if selectedUserId != "" {
      var url := prefix + selectedUserId;
      assert url[..|prefix|] == prefix;
      assert url[|prefix|..] == selectedUserId;
    }
  }

  /** The body of the vendor list endpoint. */
  datatype VendorPage = VendorPage(items: Option<seq<Verification>>)

  /** `response.data.items || []` */
  function VendorList(page: VendorPage): (r: seq<Verification>)
    ensures page.items.Some? ==> r == page.items.value
    ensures page.items.None? ==> r == []
  {
    if page.items.Some? then page.items.value else []
  }

  /** A user of `/admin/users` with the `role` of each of its role entries. */
  datatype KycUser = KycUser(id: int, roles: seq<string>, details: Record)

  predicate IsIssuer(u: KycUser)
  {
    exists i :: 0 <= i < |u.roles| && u.roles[i] == "ISSUER"
  }

  /** The user dropdown: exactly the users with an ISSUER role entry, in their order. */
  function IssuerUsers(users: seq<KycUser>): (r: seq<KycUser>)
    ensures forall u :: u in r <==> u in users && IsIssuer(u)
    ensures forall u :: multiset(r)[u] == if IsIssuer(u) then multiset(users)[u] else 0
    ensures SubsequenceOf(r, users)
  {
    if users == [] then []
    else
      assert users == [users[0]] + users[1..];
      var rest := IssuerUsers(users[1..]);
      if IsIssuer(users[0]) then [users[0]] + rest else rest
  }

  datatype Badge = Green | Yellow | Red | Blue | Gray

  /** `getStatusBadgeClass`: the colour of a status badge; an unlisted or missing status is grey. */
  function BadgeFor(status: Option<string>): (b: Badge)
    ensures b == Green <==>
      status.Some? && status.value in ["completed", "APPROVED", "GREEN", "VERIFIED", "approved"]
    ensures b == Yellow <==> status.Some? && status.value in ["pending", "PENDING", "QUEUED"]
    ensures b == Red <==> status.Some? && status.value in ["rejected", "RED", "DECLINED"]
    ensures b == Blue <==> status == Some("init")
  {
    if status.None? then Gray
    else
      match status.value
      case "completed" => Green
      case "APPROVED" => Green
      case "pending" => Yellow
      case "PENDING" => Yellow
      case "QUEUED" => Yellow
      case "rejected" => Red
      case "RED" => Red
      case "DECLINED" => Red
      case "GREEN" => Green
      case "VERIFIED" => Green
      case "approved" => Green
      case "init" => Blue
      case _ => Gray
  }

  /** The status a row shows: the local `reviewStatus`, or the vendor's review status defaulting to "init". */
  function RowStatus(src: DataSource, v: Verification): (s: Option<string>)
    ensures src == Local ==> s == v.reviewStatus
    ensures src == Vendor ==> s.Some? && s.value != ""
    ensures src == Vendor && (v.review.None? || !Truthy(v.review.value.reviewStatus)) ==> s == Some("init")
    ensures src == Vendor && v.review.Some? && Truthy(v.review.value.reviewStatus) ==> s == v.review.value.reviewStatus
  {
    match src
    case Local => v.reviewStatus
    case Vendor =>
      Some(OrElse(if v.review.Some? then v.review.value.reviewStatus else None, "init"))
  }

  /** The type a row shows: the local `type`, or the vendor's defaulting to "individual". */
  function RowType(src: DataSource, v: Verification): (t: Option<string>)
    ensures src == Local ==> t == v.kycType
    ensures src == Vendor ==> t == Some(OrElse(v.kycType, "individual"))
  {
    match src
    case Local => v.kycType
    case Vendor => Some(OrElse(v.kycType, "individual"))
  }

  /** The row key, also shown as the applicant id: the local `applicantId`, or the vendor's `id`. */
  function RowKey(src: DataSource, v: Verification): (k: Option<string>)
    ensures src == Local ==> k == v.applicantId
    ensures src == Vendor ==> k == Some(v.id)
  {
    match src
    case Local => v.applicantId
    case Vendor => Some(v.id)
  }

  /**
   * The first line of the User column: the user's email, else the external
   * user id, else "Unknown User". Both sources read it the same way; the
   * vendor's `user || {}` only guards the name line below it.
   */
  function RowUserLabel(v: Verification): (shown: string)
    ensures shown != ""
    ensures v.user.Some? && Truthy(Field(v.user.value, "email")) ==> shown == v.user.value["email"]
    ensures !(v.user.Some? && Truthy(Field(v.user.value, "email"))) && Truthy(v.externalUserId) ==>
      shown == v.externalUserId.value
    ensures !(v.user.Some? && Truthy(Field(v.user.value, "email"))) && !Truthy(v.externalUserId) ==>
      shown == "Unknown User"
  {
    var email := if v.user.Some? then Field(v.user.value, "email") else None;
    if Truthy(email) then email.value else OrElse(v.externalUserId, "Unknown User")
  }

  /** The "External ID" line: the external user id, or "N/A". */
  function RowExternalId(v: Verification): (shown: string)
    ensures Truthy(v.externalUserId) ==> shown == v.externalUserId.value
    ensures !Truthy(v.externalUserId) ==> shown == "N/A"
    ensures shown != ""
  {
    OrElse(v.externalUserId, "N/A")
  }

  /** A vendor row without a review is shown as not started, with the blue badge. */
  lemma UnreviewedVendorRowIsBlue(v: Verification)
    requires v.review.None?
    ensures BadgeFor(RowStatus(Vendor, v)) == Blue
  {
  }

  const LocalDetailPrefix := "/admin/kyc-verifications/"
  const VendorDetailPrefix := "/admin/sumsub/applicant/"

  /** The detail endpoint for a row: the source's prefix followed by the row's `id`. */
  function DetailPath(src: DataSource, v: Verification): (path: string)
    ensures var prefix := if src == Local then LocalDetailPrefix else VendorDetailPrefix;
      |path| == |prefix| + |v.id| && path[..|prefix|] == prefix && path[|prefix|..] == v.id
  {
    match src
    case Local => LocalDetailPrefix + v.id
    case Vendor => VendorDetailPrefix + v.id
  }

  const LocalError := "Failed to load local KYC verifications. Please try again later."
  const VendorError := "Failed to load Sumsub verification data. Please try again later."
  const DetailError := "Failed to load verification details. Please try again later."

  class KycList {
    const api: Client
    var verifications: seq<Verification>
    var loading: bool
    var error: Option<string>
    var selectedVerification: Option<Verification>
    var detailedView: bool
    var selectedUserId: string
    var users: seq<KycUser>
    var dataSource: DataSource

    /** `userId || ''` for the initial selection; the vendor list is shown first. */
    constructor (api: Client, userId: Option<int>)
      ensures this.api == api && verifications == [] && loading && error == None
      ensures selectedVerification == None && !detailedView && users == [] && dataSource == Vendor
      ensures selectedUserId == if userId.Some? && userId.value != 0 then IntToString(userId.value) else ""
    {
      this.api := api;
      verifications := [];
      loading := true;
      error := None;
      selectedVerification := None;
      detailedView := false;
      selectedUserId := if userId.Some? && userId.value != 0 then IntToString(userId.value) else "";
      users := [];
      dataSource := Vendor;
    }

    /** `fetchLocalVerifications`, with the GET answered by `ex`; `url` is the address asked. */
    method FetchLocal(ex: Exchange<seq<Verification>>) returns (url: string)
      modifies this`verifications, this`loading, this`error, api.browser
      ensures url == LocalListUrl(selectedUserId)
      ensures !loading
      ensures ex.Answered? && IsSuccess(ex.status) ==> verifications == ex.data && error == old(error)
      ensures !(ex.Answered? && IsSuccess(ex.status)) ==>
        verifications == old(verifications) && error == Some(LocalError)
      ensures api.browser.token == if Evicts(ex) then None else old(api.browser.token)
      ensures api.browser.href == if Evicts(ex) then "/" else old(api.browser.href)
    {
      loading := true;
      url := if selectedUserId != "" then ListPath + UserQuery + selectedUserId else ListPath;
      var _, r := api.Send(ex);
      if r.Resolved? {
        verifications := r.data;
      } else {
        error := Some(LocalError);
      }
      loading := false;
    }

    /** `fetchSumsubVerifications`, with the GET answered by `ex`. */
    method FetchVendor(ex: Exchange<VendorPage>)
      modifies this`verifications, this`loading, this`error, api.browser
      ensures !loading
      ensures ex.Answered? && IsSuccess(ex.status) ==> verifications == VendorList(ex.data) && error == old(error)
      ensures !(ex.Answered? && IsSuccess(ex.status)) ==>
        verifications == old(verifications) && error == Some(VendorError)
      ensures api.browser.token == if Evicts(ex) then None else old(api.browser.token)
      ensures api.browser.href == if Evicts(ex) then "/" else old(api.browser.href)
    {
      loading := true;
      var _, r := api.Send(ex);
      if r.Resolved? {
        verifications := if r.data.items.Some? then r.data.items.value else [];
      } else {
        error := Some(VendorError);
      }
      loading := false;
    }

    /** `fetchUsers`: a failure changes nothing on screen. */
    method FetchUsers(ex: Exchange<seq<KycUser>>)
      modifies this`users, api.browser
      ensures users == if ex.Answered? && IsSuccess(ex.status) then IssuerUsers(ex.data) else old(users)
      ensures api.browser.token == if Evicts(ex) then None else old(api.browser.token)
      ensures api.browser.href == if Evicts(ex) then "/" else old(api.browser.href)
    {
      var _, r := api.Send(ex);
      if r.Resolved? {
        users := IssuerUsers(r.data);
      }
    }

    /** `handleViewDetails(v)`, with the GET of `DetailPath` answered by `ex`. */
    method ViewDetails(v: Verification, ex: Exchange<Verification>) returns (path: string)
      modifies this`loading, this`selectedVerification, this`detailedView, this`error, api.browser
      ensures path == DetailPath(dataSource, v)
      ensures !loading
      ensures ex.Answered? && IsSuccess(ex.status) ==>
        selectedVerification == Some(ex.data) && detailedView && error == old(error)
      ensures !(ex.Answered? && IsSuccess(ex.status)) ==>
        && selectedVerification == old(selectedVerification) && detailedView == old(detailedView)
        && error == Some(DetailError)
      ensures api.browser.token == if Evicts(ex) then None else old(api.browser.token)
      ensures api.browser.href == if Evicts(ex) then "/" else old(api.browser.href)
    {
      loading := true;
      path := DetailPath(dataSource, v);
      var _, r := api.Send(ex);
      if r.Resolved? {
        selectedVerification := Some(r.data);
        detailedView := true;
      } else {
        error := Some(DetailError);
      }
      loading := false;
    }

    /** `handleBackToList` */
    method BackToList()
      modifies this`detailedView, this`selectedVerification
      ensures !detailedView && selectedVerification == None
    {
      detailedView := false;
      selectedVerification := None;
    }

    /** The source toggle. */
    method SetDataSource(src: DataSource)
      modifies this`dataSource
      ensures dataSource == src
    {
      dataSource := src;
    }
  }
}
