/**
 * The admin dashboard of `src/components/dashboard/AdminDashboard.js`: the
 * user list fetched through the shared client, three counters derived from
 * it, and the per-user verification toggle that patches the list and the
 * pending counter in place.
 */
module AdminDashboard {
  import opened Js
  import opened ApiClient

  /** A user's profile: the verification flag, and the rest of its fields. */
  datatype Profile = Profile(isVerified: bool, details: Record)
  /** A user as listed: id, `is_active`, an optional profile, and the rest of its fields. */
  datatype User = User(id: int, isActive: bool, profile: Option<Profile>, details: Record)

  datatype Stats = Stats(totalUsers: nat, pendingVerifications: nat, activeUsers: nat)

  /** `user.profile && !user.profile.is_verified` */
  predicate Pending(u: User)
  {
    u.profile.Some? && !u.profile.value.isVerified
  }

  function PendingCount(users: seq<User>): (n: nat)
    ensures n <= |users|
  {
    if users == [] then 0 else (if Pending(users[0]) then 1 else 0) + PendingCount(users[1..])
  }

  function ActiveCount(users: seq<User>): (n: nat)
    ensures n <= |users|
  {
    if users == [] then 0 else (if users[0].isActive then 1 else 0) + ActiveCount(users[1..])
  }

  /** The counters `fetchUsers` derives from the list. */
  function ComputeStats(users: seq<User>): (st: Stats)
    ensures st.totalUsers == |users|
    ensures st.pendingVerifications <= st.totalUsers && st.activeUsers <= st.totalUsers
  {
    Stats(|users|, PendingCount(users), ActiveCount(users))
  }

  /** One user after the toggle: only a matching user with a profile changes, and only in `is_verified`. */
  function Verify(u: User, userId: int, isVerified: bool): User
  {
    if u.id == userId && u.profile.Some? then u.(profile := Some(u.profile.value.(isVerified := isVerified))) else u
  }

  /**
   * The list `handleVerification` stores: same length and order; every user
   * keeps its id, activity, details and whether it has a profile; the flag
   * changes to `isVerified` on the matching users with a profile and nowhere else.
   */
  function ApplyVerification(users: seq<User>, userId: int, isVerified: bool): (r: seq<User>)
    ensures |r| == |users|
    ensures forall i :: 0 <= i < |users| ==>
      && r[i].id == users[i].id && r[i].isActive == users[i].isActive && r[i].details == users[i].details
      && r[i].profile.Some? == users[i].profile.Some?
      && (r[i].profile.Some? ==> r[i].profile.value.details == users[i].profile.value.details)
      && (r[i].profile.Some? ==>
            r[i].profile.value.isVerified == if users[i].id == userId then isVerified else users[i].profile.value.isVerified)
    ensures forall i :: 0 <= i < |users| && (users[i].id != userId || users[i].profile.None?) ==> r[i] == users[i]
  {
    seq(|users|, i requires 0 <= i < |users| => Verify(users[i], userId, isVerified))
  }

  /** The new pending count as the source computes it, from the list before the update. */
  function RecountPending(users: seq<User>, userId: int, isVerified: bool): (n: nat)
    ensures n <= |users|
  {
    if users == [] then 0
    else
      var u := users[0];
      var pending := u.profile.Some? && (if u.id == userId then !isVerified else !u.profile.value.isVerified);
      (if pending then 1 else 0) + RecountPending(users[1..], userId, isVerified)
  }

  /** The recount over the old list equals the pending count of the updated list. */
  lemma {:induction false} RecountMatchesUpdatedList(users: seq<User>, userId: int, isVerified: bool)
    ensures RecountPending(users, userId, isVerified) == PendingCount(ApplyVerification(users, userId, isVerified))
  {
    if users != [] {
      RecountMatchesUpdatedList(users[1..], userId, isVerified);
      var r := ApplyVerification(users, userId, isVerified);
      assert r[1..] == ApplyVerification(users[1..], userId, isVerified);
      assert r[0] == Verify(users[0], userId, isVerified);
    }
  }

  /** The toggle does not change who is active. */
  lemma {:induction false} VerificationKeepsActive(users: seq<User>, userId: int, isVerified: bool)
    ensures ActiveCount(ApplyVerification(users, userId, isVerified)) == ActiveCount(users)
  {
    if users != [] {
      VerificationKeepsActive(users[1..], userId, isVerified);
      var r := ApplyVerification(users, userId, isVerified);
      assert r[1..] == ApplyVerification(users[1..], userId, isVerified);
    }
  }

  /**
   * Patching only the pending counter leaves the counters exactly those of the
   * updated list: `handleVerification` keeps the stats accurate.
   */
  lemma VerificationKeepsStatsAccurate(users: seq<User>, userId: int, isVerified: bool)
    ensures ComputeStats(ApplyVerification(users, userId, isVerified))
      == ComputeStats(users).(pendingVerifications := RecountPending(users, userId, isVerified))
  {
    RecountMatchesUpdatedList(users, userId, isVerified);
    VerificationKeepsActive(users, userId, isVerified);
  }

  datatype Tab = UsersTab | WalletsTab | KycTab

  datatype View = Loading | ErrorView(message: string) | TabView(tab: Tab)

  const LoadError := "Failed to load users. Please try again later."
  const UpdateError := "Failed to update verification status. Please try again."

  class Dashboard {
    const api: Client
    var users: seq<User>
    var loading: bool
    var error: Option<string>
    var stats: Stats
    var activeTab: Tab
    var selectedUserId: Option<int>

    /** The counters describe the list on screen. */
    predicate StatsAccurate()
      reads this
    {
      stats == ComputeStats(users)
    }

    constructor (api: Client)
      ensures this.api == api && users == [] && loading && error == None
      ensures stats == Stats(0, 0, 0) && activeTab == UsersTab && selectedUserId == None
      ensures StatsAccurate()
    {
      this.api := api;
      users := [];
      loading := true;
      error := None;
      stats := Stats(0, 0, 0);
      activeTab := UsersTab;
      selectedUserId := None;
    }

    /** The users tab waits for the list and shows its error; every other tab renders regardless. */
    function Screen(): (v: View)
      reads this
      ensures activeTab != UsersTab ==> v == TabView(activeTab)
      ensures v == TabView(activeTab) <==> activeTab != UsersTab || (!loading && !Truthy(error))
    {
      if loading && activeTab == UsersTab then Loading
      else if Truthy(error) && activeTab == UsersTab then ErrorView(error.value)
      else TabView(activeTab)
    }

    /** `fetchUsers`, with `GET /admin/users` answered by `ex`. */
    method FetchUsers(ex: Exchange<seq<User>>)
      modifies this`users, this`loading, this`error, this`stats, api.browser
      ensures !loading
      ensures ex.Answered? && IsSuccess(ex.status) ==>
        users == ex.data && StatsAccurate() && error == old(error)
      ensures !(ex.Answered? && IsSuccess(ex.status)) ==>
        users == old(users) && stats == old(stats) && error == Some(LoadError)
      ensures api.browser.token == if Evicts(ex) then None else old(api.browser.token)
      ensures api.browser.href == if Evicts(ex) then "/" else old(api.browser.href)
    {
      loading := true;
      var _, r := api.Send(ex);
      match r
      case Resolved(list) =>
        users := list;
        stats := Stats(|list|, PendingCount(list), ActiveCount(list));
        loading := false;
      case Rejected(_) =>
        error := Some(LoadError);
        loading := false;
    }

    /**
     * `handleVerification(userId, isVerified)`, with the POST answered by `ex`:
     * on success the list is patched and only the pending counter is replaced,
     * which keeps accurate counters accurate; on failure only `error` changes.
     */
    method HandleVerification(userId: int, isVerified: bool, ex: Exchange<()>)
      modifies this`users, this`error, this`stats, api.browser
      ensures ex.Answered? && IsSuccess(ex.status) ==>
        && users == ApplyVerification(old(users), userId, isVerified)
        && stats == old(stats).(pendingVerifications := RecountPending(old(users), userId, isVerified))
        && error == old(error)
      ensures !(ex.Answered? && IsSuccess(ex.status)) ==>
        users == old(users) && stats == old(stats) && error == Some(UpdateError)
      ensures old(StatsAccurate()) ==> StatsAccurate()
      ensures api.browser.token == if Evicts(ex) then None else old(api.browser.token)
      ensures api.browser.href == if Evicts(ex) then "/" else old(api.browser.href)
    {
      var _, r := api.Send(ex);
      if r.Resolved? {
        var before := users;
        users := ApplyVerification(before, userId, isVerified);
        stats := stats.(pendingVerifications := RecountPending(before, userId, isVerified));
        VerificationKeepsStatsAccurate(before, userId, isVerified);
      } else {
        error := Some(UpdateError);
      }
    }

    /** `handleViewKYC(userId)` */
    method ViewKyc(userId: int)
      modifies this`selectedUserId, this`activeTab
      ensures selectedUserId == Some(userId) && activeTab == KycTab
    {
      selectedUserId := Some(userId);
      activeTab := KycTab;
    }

    /** A tab button. */
    method SelectTab(tab: Tab)
      modifies this`activeTab
      ensures activeTab == tab
    {
      activeTab := tab;
    }
  }
}
