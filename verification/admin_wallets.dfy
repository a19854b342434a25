/**
 * The wallet table of `src/components/dashboard/AdminWallets.js`: a sorted
 * copy of the fetched wallets, filtered by a search term and a role, cut
 * into pages of ten, with a window of page buttons and ellipses.
 *
 * `localeCompare` is stood in for by `LexCompare` (character order) and a
 * `created_at` timestamp by its value in milliseconds.
 */
module AdminWallets {
  import opened Js
  import opened ApiClient

  datatype WalletUser = WalletUser(email: string, firstName: string, lastName: string, roles: seq<string>)
  datatype Wallet = Wallet(id: int, address: string, walletType: string, createdAt: int, user: WalletUser)

  /** The columns `handleSort` is called with: id, user, role, address, type, created_at. */
  datatype SortField = ById | ByUser | ByRole | ByAddress | ByType | ByCreatedAt
  datatype Direction = Asc | Desc

  // ---------------------------------------------------------------------------
  // The comparator

  /** The columns compared as numbers (`new Date(a) - new Date(b)`, `a - b`). */
  predicate Numeric(f: SortField)
  {
    f == ById || f == ByCreatedAt
  }

  /** The value a numeric column compares. */
  function NumberKey(f: SortField, w: Wallet): int
  {
    if f == ById then w.id else w.createdAt
  }

  /** The primary role, `roles[0] || ''`. */
  function PrimaryRole(u: WalletUser): string
  {
    if |u.roles| > 0 then u.roles[0] else ""
  }

  /** The value a string column compares: the lower-cased email, the primary role, or the field itself. */
  function TextKey(f: SortField, w: Wallet): string
  {
    match f
    case ByUser => ToLower(w.user.email)
    case ByRole => PrimaryRole(w.user)
    case ByAddress => w.address
    case _ => w.walletType
  }

  /** The comparator given to `sort`; `Desc` compares the second wallet with the first. */
  function Compare(f: SortField, d: Direction, a: Wallet, b: Wallet): (r: int)
    ensures !Numeric(f) ==> -1 <= r <= 1
    ensures !Numeric(f) ==> (r == 0 <==> TextKey(f, a) == TextKey(f, b))
    ensures Numeric(f) ==> (r < 0 <==> (if d == Asc then NumberKey(f, a) < NumberKey(f, b) else NumberKey(f, b) < NumberKey(f, a)))
  {
    var (x, y) := if d == Asc then (a, b) else (b, a);
    if Numeric(f) then NumberKey(f, x) - NumberKey(f, y) else LexCompare(TextKey(f, x), TextKey(f, y))
  }

  /** For every column, the descending comparator is the negated ascending one. */
  lemma DescNegatesAsc(f: SortField, a: Wallet, b: Wallet)
    ensures Compare(f, Desc, a, b) == -Compare(f, Asc, a, b)
  {
    if !Numeric(f) {
      LexCompareAntisymmetric(TextKey(f, a), TextKey(f, b));
    }
  }

  /** Swapping the arguments negates the comparison. */
  lemma CompareAntisymmetric(f: SortField, d: Direction, a: Wallet, b: Wallet)
    ensures Compare(f, d, b, a) == -Compare(f, d, a, b)
  {
    if !Numeric(f) {
      LexCompareAntisymmetric(TextKey(f, a), TextKey(f, b));
    }
  }

  /** "Sorts no later than" is transitive, so the comparator is a consistent total preorder. */
  lemma CompareTransitive(f: SortField, d: Direction, a: Wallet, b: Wallet, c: Wallet)
    requires Compare(f, d, a, b) <= 0 && Compare(f, d, b, c) <= 0
    ensures Compare(f, d, a, c) <= 0
  {
    if !Numeric(f) {
      if d == Asc {
        LexCompareTransitive(TextKey(f, a), TextKey(f, b), TextKey(f, c));
      } else {
        LexCompareTransitive(TextKey(f, c), TextKey(f, b), TextKey(f, a));
      }
    }
  }

  predicate Sorted(s: seq<Wallet>, f: SortField, d: Direction)
  {
    forall i, j :: 0 <= i < j < |s| ==> Compare(f, d, s[i], s[j]) <= 0
  }

  // ---------------------------------------------------------------------------
  // Sorting

  /** Inserts `x` before the first element it sorts strictly before. */
  function Insert(f: SortField, d: Direction, x: Wallet, s: seq<Wallet>): (r: seq<Wallet>)
    ensures multiset(r) == multiset(s) + multiset{x}
  {
    if s == [] then [x]
    else if Compare(f, d, x, s[0]) <= 0 then [x] + s
    else
      assert s == [s[0]] + s[1..];
      [s[0]] + Insert(f, d, x, s[1..])
  }

  /** A sorted list headed by an element no later than its old head stays sorted. */
  lemma PrependKeepsSorted(f: SortField, d: Direction, x: Wallet, s: seq<Wallet>)
    requires Sorted(s, f, d) && s != [] && Compare(f, d, x, s[0]) <= 0
    ensures Sorted([x] + s, f, d)
  {
    var r := [x] + s;
    forall i, j | 0 <= i < j < |r|
      ensures Compare(f, d, r[i], r[j]) <= 0
    {
      if i == 0 && j > 1 {
        CompareTransitive(f, d, x, s[0], s[j - 1]);
      }
    }
  }

  /** An element no later than every element of a sorted list may head it. */
  lemma PrependLeast(f: SortField, d: Direction, y: Wallet, t: seq<Wallet>)
    requires Sorted(t, f, d)
    requires forall j :: 0 <= j < |t| ==> Compare(f, d, y, t[j]) <= 0
    ensures Sorted([y] + t, f, d)
  {
    var r := [y] + t;
    forall i, j | 0 <= i < j < |r|
      ensures Compare(f, d, r[i], r[j]) <= 0
    {
      if i > 0 {
        assert r[i] == t[i - 1] && r[j] == t[j - 1];
      }
    }
  }

  lemma {:induction false} InsertKeepsSorted(f: SortField, d: Direction, x: Wallet, s: seq<Wallet>)
    requires Sorted(s, f, d)
    ensures Sorted(Insert(f, d, x, s), f, d)
  {
    if s == [] {
    } else if Compare(f, d, x, s[0]) <= 0 {
      PrependKeepsSorted(f, d, x, s);
    } else {
      assert Sorted(s[1..], f, d);
      InsertKeepsSorted(f, d, x, s[1..]);
      CompareAntisymmetric(f, d, x, s[0]);
      HeadBeforeInserted(f, d, x, s);
      PrependLeast(f, d, s[0], Insert(f, d, x, s[1..]));
    }
  }

  /** The head of a sorted list sorts no later than anything in its tail with `x` inserted, when it sorts before `x`. */
  lemma HeadBeforeInserted(f: SortField, d: Direction, x: Wallet, s: seq<Wallet>)
    requires Sorted(s, f, d) && s != [] && Compare(f, d, s[0], x) <= 0
    ensures forall j :: 0 <= j < |Insert(f, d, x, s[1..])| ==> Compare(f, d, s[0], Insert(f, d, x, s[1..])[j]) <= 0
  {
    var tail := Insert(f, d, x, s[1..]);
    forall j | 0 <= j < |tail|
      ensures Compare(f, d, s[0], tail[j]) <= 0
    {
      assert tail[j] in multiset(s[1..]) + multiset{x};
      if tail[j] != x {
        assert tail[j] in s[1..];
        var k :| 0 <= k < |s[1..]| && s[1..][k] == tail[j];
        assert s[k + 1] == tail[j];
      }
    }
  }

  /**
   * `[...wallets].sort(comparator)`: a reordering of the wallets (the fetched
   * list itself is a value and stays as it was) in comparator order.
   */
  function SortWallets(s: seq<Wallet>, f: SortField, d: Direction): (r: seq<Wallet>)
    ensures multiset(r) == multiset(s)
    ensures Sorted(r, f, d)
  {
    if s == [] then []
    else
      assert s == [s[0]] + s[1..];
      var rest := SortWallets(s[1..], f, d);
      InsertKeepsSorted(f, d, s[0], rest);
      Insert(f, d, s[0], rest)
  }

  /** `a` and `b` have the same value in column `f`, so the comparator ties them. */
  predicate SameKey(f: SortField, a: Wallet, b: Wallet)
  {
    if Numeric(f) then NumberKey(f, a) == NumberKey(f, b) else TextKey(f, a) == TextKey(f, b)
  }

  lemma CompareZeroIffSameKey(f: SortField, d: Direction, a: Wallet, b: Wallet)
    ensures Compare(f, d, a, b) == 0 <==> SameKey(f, a, b)
  {
  }

  /** The wallets of `s` with the same value in column `f` as `x`, in their order in `s`. */
  function Ties(s: seq<Wallet>, f: SortField, x: Wallet): (t: seq<Wallet>)
    ensures |t| <= |s|
  {
    if s == [] then [] else (if SameKey(f, s[0], x) then [s[0]] else []) + Ties(s[1..], f, x)
  }

  lemma TiesOfCons(a: Wallet, s: seq<Wallet>, f: SortField, y: Wallet)
    ensures Ties([a] + s, f, y) == (if SameKey(f, a, y) then [a] else []) + Ties(s, f, y)
  {
    assert ([a] + s)[1..] == s;
  }

  /** Inserting `x` puts it ahead of every wallet it ties with. */
  lemma {:induction false} TiesOfInsert(f: SortField, d: Direction, x: Wallet, t: seq<Wallet>, y: Wallet)
    ensures Ties(Insert(f, d, x, t), f, y) == if SameKey(f, x, y) then [x] + Ties(t, f, y) else Ties(t, f, y)
  {
    if t == [] {
      TiesOfCons(x, [], f, y);
    } else if Compare(f, d, x, t[0]) <= 0 {
      TiesOfCons(x, t, f, y);
    } else {
      var rest := Insert(f, d, x, t[1..]);
      assert Insert(f, d, x, t) == [t[0]] + rest;
      TiesOfCons(t[0], rest, f, y);
      TiesOfInsert(f, d, x, t[1..], y);
      assert t == [t[0]] + t[1..];
      TiesOfCons(t[0], t[1..], f, y);
      CompareZeroIffSameKey(f, d, x, t[0]);
      if SameKey(f, x, y) {
        assert !SameKey(f, t[0], y);
      }
    }
  }

  /**
   * The sort is stable: for every wallet, the wallets tied with it appear in
   * the sorted copy in the order the server sent them.
   */
  lemma {:induction false} SortIsStable(s: seq<Wallet>, f: SortField, d: Direction, x: Wallet)
    ensures Ties(SortWallets(s, f, d), f, x) == Ties(s, f, x)
  {
    if s != [] {
      SortIsStable(s[1..], f, d, x);
      TiesOfInsert(f, d, s[0], SortWallets(s[1..], f, d), x);
    }
  }

  // ---------------------------------------------------------------------------
  // Filtering

  /** The lower-cased term is part of the lower-cased address, email, or "first last" name. */
  predicate MatchesSearch(w: Wallet, term: string)
    ensures term == "" ==> MatchesSearch(w, term)
  {
    ContainsEmpty(ToLower(w.address));
    var t := ToLower(term);
    Contains(ToLower(w.address), t) || Contains(ToLower(w.user.email), t)
    || Contains(ToLower(w.user.firstName + " " + w.user.lastName), t)
  }

  /** The role filter: '' keeps everyone, otherwise one of the user's roles must be it. */
  predicate MatchesRole(w: Wallet, role: string)
    ensures role == "" ==> MatchesRole(w, role)
    ensures role != "" ==> (MatchesRole(w, role) <==> exists i :: 0 <= i < |w.user.roles| && w.user.roles[i] == role)
  {
    role == "" || role in w.user.roles
  }

  /** `filteredWallets`: the wallets matching both the search and the role filter, in their order. */
  function FilterWallets(s: seq<Wallet>, term: string, role: string): (r: seq<Wallet>)
    ensures forall w :: w in r <==> w in s && MatchesSearch(w, term) && MatchesRole(w, role)
    ensures forall w :: multiset(r)[w] == if MatchesSearch(w, term) && MatchesRole(w, role) then multiset(s)[w] else 0
    ensures SubsequenceOf(r, s)
  {
    if s == [] then []
    else
      assert s == [s[0]] + s[1..];
      var rest := FilterWallets(s[1..], term, role);
      if MatchesSearch(s[0], term) && MatchesRole(s[0], role) then [s[0]] + rest else rest
  }

  /** Filtering keeps the sorted order. */
  lemma {:induction false} FilterKeepsOrder(s: seq<Wallet>, term: string, role: string, f: SortField, d: Direction)
    requires Sorted(s, f, d)
    ensures Sorted(FilterWallets(s, term, role), f, d)
  {
    if s != [] {
      var tail := s[1..];
      assert Sorted(tail, f, d);
      FilterKeepsOrder(tail, term, role, f, d);
      var rest := FilterWallets(tail, term, role);
      if MatchesSearch(s[0], term) && MatchesRole(s[0], role) {
        HeadBeforeFiltered(s, term, role, f, d);
        PrependLeast(f, d, s[0], rest);
      }
    }
  }

  /** The head of a sorted list sorts no later than anything its tail keeps through the filter. */
  lemma HeadBeforeFiltered(s: seq<Wallet>, term: string, role: string, f: SortField, d: Direction)
    requires Sorted(s, f, d) && s != []
    ensures forall j :: 0 <= j < |FilterWallets(s[1..], term, role)| ==> Compare(f, d, s[0], FilterWallets(s[1..], term, role)[j]) <= 0
  {
    var rest := FilterWallets(s[1..], term, role);
    forall j | 0 <= j < |rest|
      ensures Compare(f, d, s[0], rest[j]) <= 0
    {
      assert rest[j] in s[1..];
      var k :| 0 <= k < |s[1..]| && s[1..][k] == rest[j];
      assert s[k + 1] == rest[j];
    }
  }

  /** With an empty search term and no role filter, nothing is filtered out. */
  lemma {:induction false} EmptyFiltersKeepAll(s: seq<Wallet>)
    ensures FilterWallets(s, "", "") == s
  {
    if s != [] {
      EmptyFiltersKeepAll(s[1..]);
      assert s == [s[0]] + s[1..];
    }
  }

  // ---------------------------------------------------------------------------
  // Pagination

  const WalletsPerPage := 10

  /** `Math.ceil(n / 10)` */
  function TotalPages(n: nat): (t: nat)
    ensures (t - 1) * WalletsPerPage < n <= t * WalletsPerPage || (n == 0 && t == 0)
  {
    (n + WalletsPerPage - 1) / WalletsPerPage
  }

  /** The wallets on page `p`: `slice((p - 1) * 10, p * 10)`. */
  function PageOf(s: seq<Wallet>, p: int): (r: seq<Wallet>)
    ensures |r| <= WalletsPerPage
    ensures 1 <= p && (p - 1) * WalletsPerPage <= |s| ==>
      r == s[(p - 1) * WalletsPerPage..if p * WalletsPerPage <= |s| then p * WalletsPerPage else |s|]
    ensures p > TotalPages(|s|) ==> r == []
  {
    Slice(s, p * WalletsPerPage - WalletsPerPage, p * WalletsPerPage)
  }

  /** A page of a sorted list is sorted. */
  lemma PageKeepsSorted(s: seq<Wallet>, p: int, f: SortField, d: Direction)
    requires Sorted(s, f, d)
    ensures Sorted(PageOf(s, p), f, d)
  {
    var lo, hi := p * WalletsPerPage - WalletsPerPage, p * WalletsPerPage;
    var a, b := SliceIndex(lo, |s|), SliceIndex(hi, |s|);
    assert PageOf(s, p) == Slice(s, lo, hi);
    if a < b {
      RangeKeepsSorted(s, a, b, f, d);
    }
  }

  /** Any contiguous range of a sorted list is sorted. */
  lemma RangeKeepsSorted(s: seq<Wallet>, a: nat, b: nat, f: SortField, d: Direction)
    requires Sorted(s, f, d) && a <= b <= |s|
    ensures Sorted(s[a..b], f, d)
  {
    var r := s[a..b];
    forall i, j | 0 <= i < j < |r|
      ensures Compare(f, d, r[i], r[j]) <= 0
    {
      assert r[i] == s[a + i] && r[j] == s[a + j];
    }
  }

  /** Pages 1 to k laid end to end. */
  function FirstPages(s: seq<Wallet>, k: nat): seq<Wallet>
  {
    if k == 0 then [] else FirstPages(s, k - 1) + PageOf(s, k)
  }

  lemma {:induction false} FirstPagesArePrefix(s: seq<Wallet>, k: nat)
    ensures FirstPages(s, k) == s[..if k * WalletsPerPage <= |s| then k * WalletsPerPage else |s|]
  {
    if k > 0 {
      FirstPagesArePrefix(s, k - 1);
      var lo := if (k - 1) * WalletsPerPage <= |s| then (k - 1) * WalletsPerPage else |s|;
      var hi := if k * WalletsPerPage <= |s| then k * WalletsPerPage else |s|;
      assert s[..hi] == s[..lo] + s[lo..hi];
    }
  }

  /** The pages from 1 to `TotalPages` show every filtered wallet once, in order. */
  lemma PagesCoverList(s: seq<Wallet>)
    ensures FirstPages(s, TotalPages(|s|)) == s
  {
    FirstPagesArePrefix(s, TotalPages(|s|));
  }

  /** The pagination bar is rendered only for more than one page's worth of wallets. */
  predicate PaginationShown(n: nat)
    ensures PaginationShown(n) <==> TotalPages(n) > 1
  {
    n > WalletsPerPage
  }

  /** Previous: `currentPage > 1 ? currentPage - 1 : 1`. */
  function PrevPage(current: int): int
  {
    if current > 1 then current - 1 else 1
  }

  /** Next: `currentPage < totalPages ? currentPage + 1 : totalPages`. */
  function NextPage(current: int, total: nat): int
  {
    if current < total then current + 1 else total
  }

  /** Previous and Next never leave [1, totalPages], and move by one page unless at an end. */
  lemma PrevNextStayInRange(current: int, total: nat)
    requires 1 <= current <= total
    ensures 1 <= PrevPage(current) <= total && 1 <= NextPage(current, total) <= total
    ensures PrevPage(current) == (if current == 1 then 1 else current - 1)
    ensures NextPage(current, total) == (if current == total then total else current + 1)
  {
  }

  /** What the page window draws for page k. */
  datatype PageButton = Number | Ellipsis | Hidden

  /**
   * Page k gets a number iff it is the first, the last, or within two of the
   * current page; otherwise an ellipsis only at page 2 past page 4, or at the
   * last page but one when the current page is more than three before the end.
   */
  function ButtonFor(k: int, current: int, total: int): (b: PageButton)
    ensures b == Number <==> k == 1 || k == total || -2 <= k - current <= 2
    ensures b == Ellipsis <==>
      && !(k == 1 || k == total || -2 <= k - current <= 2)
      && ((k == 2 && current > 4) || (k == total - 1 && current < total - 3))
  {
    if k == 1 || k == total || (current - 2 <= k && k <= current + 2) then Number
    else if (k == 2 && current > 4) || (k == total - 1 && current < total - 3) then Ellipsis
    else Hidden
  }

  /**
   * For a current page within range: the first, last and current pages always
   * have a number; an ellipsis only appears at page 2 or at the last page but
   * one, on a page without a number; and every page without a number has the
   * ellipsis on its side of the current page.
   */
  lemma EllipsesMarkEveryGap(current: int, total: int)
    requires 1 <= current <= total
    ensures ButtonFor(1, current, total) == Number && ButtonFor(total, current, total) == Number
    ensures ButtonFor(current, current, total) == Number
    ensures forall k :: ButtonFor(k, current, total) == Ellipsis ==> k == 2 || k == total - 1
    ensures forall k :: 1 <= k <= total && ButtonFor(k, current, total) != Number ==>
      if k < current then ButtonFor(2, current, total) == Ellipsis
      else ButtonFor(total - 1, current, total) == Ellipsis
  {
  }

  /** `handleSort(field)`: the same column flips the direction, a new one sorts ascending. */
  function SortAfterClick(field: SortField, direction: Direction, clicked: SortField): (r: (SortField, Direction))
    ensures r.0 == clicked
    ensures clicked == field ==> r.1 != direction
    ensures clicked != field ==> r.1 == Asc
  {
    if clicked == field then (field, if direction == Asc then Desc else Asc) else (clicked, Asc)
  }

  /** Clicking the same column twice restores the ordering. */
  lemma DoubleClickRestores(field: SortField, direction: Direction, clicked: SortField)
    ensures var (f1, d1) := SortAfterClick(field, direction, clicked);
      SortAfterClick(f1, d1, clicked) == (if clicked == field then (field, direction) else (clicked, Desc))
  {
  }

  /**
   * `truncateAddress`: "N/A" for a missing or empty address, otherwise the
   * first `head` characters, "...", and the last `tail` characters (the whole
   * address on each side when it is shorter than that).
   */
  function Truncate(address: Option<string>, head: nat, tail: nat): (r: string)
    ensures !Truthy(address) ==> r == "N/A"
    ensures Truthy(address) ==>
      var a := address.value;
      r == a[..if |a| < head then |a| else head] + "..." + a[if |a| < tail then 0 else |a| - tail..]
    ensures Truthy(address) && |address.value| < head && |address.value| < tail ==>
      r == address.value + "..." + address.value
  {
    if !Truthy(address) then "N/A"
    else
      var a := address.value;
      Substring(a, 0, head) + "..." + SubstringFrom(a, |a| - tail)
  }

  /** The wallet table's truncation: six characters, "...", four characters. */
  function TruncateAddress(address: Option<string>): (r: string)
    ensures !Truthy(address) ==> r == "N/A"
    ensures Truthy(address) ==>
      var a := address.value;
      r == a[..if |a| < 6 then |a| else 6] + "..." + a[if |a| < 4 then 0 else |a| - 4..]
  {
    Truncate(address, 6, 4)
  }

  // ---------------------------------------------------------------------------
  // The component

  /** What the component renders. */
  datatype View = Spinner | ErrorView(message: string) | Details(walletId: int) | Table

  const LoadError := "Failed to load wallets. Please try again later."

  class WalletsTable {
    var wallets: seq<Wallet>
    var loading: bool
    var error: Option<string>
    var currentPage: int
    var searchTerm: string
    var sortField: SortField
    var sortDirection: Direction
    var filterRole: string
    var selectedWalletId: Option<int>

    constructor ()
      ensures wallets == [] && loading && error == None && currentPage == 1
      ensures searchTerm == "" && sortField == ByCreatedAt && sortDirection == Desc
      ensures filterRole == "" && selectedWalletId == None
    {
      wallets := [];
      loading := true;
      error := None;
      currentPage := 1;
      searchTerm := "";
      sortField := ByCreatedAt;
      sortDirection := Desc;
      filterRole := "";
      selectedWalletId := None;
    }

    function Filtered(): seq<Wallet>
      reads this
    {
      FilterWallets(SortWallets(wallets, sortField, sortDirection), searchTerm, filterRole)
    }

    /** `currentWallets` */
    function CurrentWallets(): seq<Wallet>
      reads this
    {
      PageOf(Filtered(), currentPage)
    }

    /**
     * The filtered list holds every fetched wallet that passes both filters, as
     * many times as it was fetched, in the chosen order; the rows on screen are
     * its current page, at most ten, in that same order.
     */
    lemma RowsAreFilteredAndSorted()
      ensures Sorted(Filtered(), sortField, sortDirection)
      ensures forall w :: w in Filtered() <==>
        w in wallets && MatchesSearch(w, searchTerm) && MatchesRole(w, filterRole)
      ensures forall w ::
        multiset(Filtered())[w] == if MatchesSearch(w, searchTerm) && MatchesRole(w, filterRole) then multiset(wallets)[w] else 0
      ensures CurrentWallets() == PageOf(Filtered(), currentPage)
      ensures Sorted(CurrentWallets(), sortField, sortDirection)
      ensures |CurrentWallets()| <= WalletsPerPage
    {
      var sorted := SortWallets(wallets, sortField, sortDirection);
      FilterKeepsOrder(sorted, searchTerm, filterRole, sortField, sortDirection);
      forall w
        ensures w in sorted <==> w in wallets
      {
        assert w in sorted <==> w in multiset(sorted);
      }
      PageKeepsSorted(Filtered(), currentPage, sortField, sortDirection);
    }

    /** The render guards: spinner, then the error screen, then the details view, then the table. */
    function Screen(): (v: View)
      reads this
      ensures v == Spinner <==> loading
      ensures v.ErrorView? <==> !loading && Truthy(error)
      ensures v == Table <==> !loading && !Truthy(error) && selectedWalletId.None?
    {
      if loading then Spinner
      else if Truthy(error) then ErrorView(error.value)
      else if selectedWalletId.Some? then Details(selectedWalletId.value)
      else Table
    }

    /**
     * `fetchWallets` (also the "Try Again" button), with the GET answered by
     * `ex`: success replaces the list, failure sets the message; `error` is
     * never cleared, so once set the error screen stays.
     */
    method FetchWallets(ex: Exchange<seq<Wallet>>)
      modifies this`wallets, this`loading, this`error
      ensures !loading
      ensures ex.Answered? && IsSuccess(ex.status) ==> wallets == ex.data && error == old(error)
      ensures !(ex.Answered? && IsSuccess(ex.status)) ==> wallets == old(wallets) && error == Some(LoadError)
      ensures Truthy(old(error)) ==> Screen().ErrorView?
    {
      loading := true;
      match Settle(ex)
      case Resolved(list) =>
        wallets := list;
        loading := false;
      case Rejected(_) =>
        error := Some(LoadError);
        loading := false;
    }

    /** `fetchWallets` as evidently intended: a successful retry leaves the error screen. */
    method FetchWalletsClearingError(ex: Exchange<seq<Wallet>>)
      modifies this`wallets, this`loading, this`error
      ensures !loading
      ensures ex.Answered? && IsSuccess(ex.status) ==> wallets == ex.data && error == None
      ensures !(ex.Answered? && IsSuccess(ex.status)) ==> wallets == old(wallets) && error == Some(LoadError)
      ensures ex.Answered? && IsSuccess(ex.status) ==> Screen() != ErrorView(LoadError)
    {
      loading := true;
      match Settle(ex)
      case Resolved(list) =>
        wallets := list;
        error := None;
        loading := false;
      case Rejected(_) =>
        error := Some(LoadError);
        loading := false;
    }

    /** A column header click. */
    method HandleSort(clicked: SortField)
      modifies this`sortField, this`sortDirection
      ensures (sortField, sortDirection) == SortAfterClick(old(sortField), old(sortDirection), clicked)
    {
      if sortField == clicked {
        sortDirection := if sortDirection == Asc then Desc else Asc;
      } else {
        sortField := clicked;
        sortDirection := Asc;
      }
    }

    /** Typing in the search box; the current page is kept as it was. */
    method SetSearchTerm(term: string)
      modifies this`searchTerm
      ensures searchTerm == term
    {
      searchTerm := term;
    }

    /** Choosing a role in the filter; the current page is kept as it was. */
    method SetFilterRole(role: string)
      modifies this`filterRole
      ensures filterRole == role
    {
      filterRole := role;
    }

    /** The search box as evidently intended: a new term starts again from page 1. */
    method SetSearchTermFromFirstPage(term: string)
      modifies this`searchTerm, this`currentPage
      ensures searchTerm == term && currentPage == 1
      ensures |Filtered()| > 0 ==> |CurrentWallets()| > 0
    {
      searchTerm := term;
      currentPage := 1;
    }

    method Previous()
      modifies this`currentPage
      ensures currentPage == PrevPage(old(currentPage))
    {
      currentPage := if currentPage > 1 then currentPage - 1 else 1;
    }

    method Next()
      modifies this`currentPage
      ensures currentPage == NextPage(old(currentPage), TotalPages(|Filtered()|))
    {
      var total := TotalPages(|Filtered()|);
      currentPage := if currentPage < total then currentPage + 1 else total;
    }

    /** A numbered page button. */
    method GoToPage(k: int)
      modifies this`currentPage
      ensures currentPage == k
    {
      currentPage := k;
    }

    method ViewWalletDetails(id: int)
      modifies this`selectedWalletId
      ensures selectedWalletId == Some(id)
    {
      selectedWalletId := Some(id);
    }

    method BackToWallets()
      modifies this`selectedWalletId
      ensures selectedWalletId == None
    {
      selectedWalletId := None;
    }
  }

  /**
   * With the filters narrowed to at most one page of results while a later
   * page is current, the table is empty and the pagination bar (the only way
   * back) is not drawn.
   */
  lemma StalePageShowsNothing(s: seq<Wallet>, page: int)
    requires 0 < |s| <= WalletsPerPage && page >= 2
    ensures PageOf(s, page) == [] && !PaginationShown(|s|)
  {
  }
}
