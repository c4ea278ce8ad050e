/**
 * The platform gallery modal (components/PlatformModal.tsx): the projects of
 * one platform, five to a page, with previous/next and numbered page buttons,
 * a loading spinner and an error line. The paging arithmetic is pure; the
 * modal's state (platform shown, fetched projects, loading flag, error,
 * current page) is the class `Gallery`, one method per event.
 */
module PlatformModal {
  import opened Wrappers
  import opened Projects

  const ItemsPerPage: nat := 5

  /** `Math.ceil(count / ItemsPerPage)`: the fewest pages of five that hold `count` items. */
  function TotalPages(count: nat): (t: nat)
    ensures t * ItemsPerPage >= count
    ensures t > 0 ==> (t - 1) * ItemsPerPage < count
    ensures t == 0 <==> count == 0
  {
    (count + ItemsPerPage - 1) / ItemsPerPage
  }

  /** Where a JavaScript `slice` bound `k` lands in a sequence of length `n`. */
  function SliceBound(k: int, n: nat): (r: nat)
    ensures r <= n
    ensures 0 <= k <= n ==> r == k
    ensures n <= k ==> r == n
    ensures k < 0 ==> r == Max(0, n + k)
  {
    if k < 0 then (if n + k < 0 then 0 else n + k)
    else if k > n then n
    else k
  }

  /** `s.slice(start, end)`: negative bounds count from the end, an inverted range is empty. */
  function Slice<T>(s: seq<T>, start: int, end: int): (r: seq<T>)
    ensures |r| <= |s|
    ensures |r| == Max(0, SliceBound(end, |s|) - SliceBound(start, |s|))
    ensures forall k :: 0 <= k < |r| ==> r[k] == s[SliceBound(start, |s|) + k]
  {
    var b := SliceBound(start, |s|);
    var e := SliceBound(end, |s|);
    if b < e then s[b..e] else []
  }

  /** `startIndex` of page `page`. */
  function PageStart(page: int): int {
    (page - 1) * ItemsPerPage
  }

  /** `currentProjects`: the items shown on page `page`. */
  function PageSlice(projects: seq<Project>, page: int): (r: seq<Project>)
    ensures page >= 1 ==> |r| <= ItemsPerPage
    ensures page >= 1 ==> |r| == Max(0, Min(ItemsPerPage, |projects| - PageStart(page)))
    ensures page >= 1 ==> forall k :: 0 <= k < |r| ==> r[k] == projects[PageStart(page) + k]
  {
    Slice(projects, PageStart(page), PageStart(page) + ItemsPerPage)
  }

  /** `goToPage`'s `Math.max(1, Math.min(page, totalPages))`. */
  function ClampPage(requested: int, totalPages: nat): (p: int)
    ensures 1 <= p <= Max(1, totalPages)
    ensures 1 <= requested <= totalPages ==> p == requested
    ensures requested < 1 ==> p == 1
    ensures requested > totalPages ==> p == Max(1, totalPages)
  {
    Max(1, Min(requested, totalPages))
  }

  /** The pages a gallery of `total` pages may show: `1..Max(1, total)`. */
  predicate ValidPage(page: int, total: nat) {
    1 <= page <= Max(1, total)
  }

  /**
   * `disabled={currentPage === 1}` on the previous button: on any page of the
   * gallery it is disabled exactly when `goToPage(currentPage - 1)` would stay put.
   */
  function PrevDisabled(current: int): (b: bool)
    ensures forall total: nat :: ValidPage(current, total) ==> (b <==> ClampPage(current - 1, total) == current)
  {
    current == 1
  }

  /**
   * `disabled={currentPage === totalPages || totalPages === 0}` on the next
   * button: on a page of the gallery it is disabled exactly when
   * `goToPage(currentPage + 1)` would stay put.
   */
  function NextDisabled(current: int, total: nat): (b: bool)
    ensures ValidPage(current, total) ==> (b <==> ClampPage(current + 1, total) == current)
  {
    current == total || total == 0
  }

  /** `Array.from({ length: totalPages }, (_, i) => i + 1)`: the numbered buttons. */
  function PageButtons(total: nat): (buttons: seq<int>)
    ensures |buttons| == total
    ensures forall i :: 0 <= i < total ==> buttons[i] == i + 1
  {
    seq(total, i => i + 1)
  }

  /** The header line under the title: `<count> video[s]`, then ` • Page <current>/<total>` past one page. */
  datatype Caption = Caption(count: nat, plural: bool, pageIndicator: Option<(int, nat)>)

  function HeaderCaption(count: nat, current: int): (c: Caption)
    ensures c.count == count
    ensures c.plural <==> count != 1
    ensures c.pageIndicator.Some? <==> count > ItemsPerPage
    ensures c.pageIndicator.Some? ==> c.pageIndicator.value == (current, TotalPages(count))
  {
    var total := TotalPages(count);
    Caption(count, count != 1, if total > 1 then Some((current, total)) else None)
  }

  /** The name in the modal's header (`platformConfig[platform].name`). */
  function DisplayName(p: Platform): string {
    match p
    case YouTube => "YouTube"
    case TikTok => "TikTok"
    case Instagram => "Instagram"
  }

  // ---------------------------------------------------------------------
  // Paging lemmas
  // ---------------------------------------------------------------------

  /** Twelve projects make three pages: five on the first, two on the last. */
  lemma TwelveProjects(projects: seq<Project>)
    requires |projects| == 12
    ensures TotalPages(|projects|) == 3
    ensures PageSlice(projects, 1) == projects[..5]
    ensures PageSlice(projects, 3) == projects[10..]
    ensures PageSlice(projects, 4) == []
  {
  }

  /** With three pages, 99 goes to the last page and -5 to the first; with none, any request gives page 1. */
  lemma ClampExamples()
    ensures ClampPage(99, 3) == 3 && ClampPage(-5, 3) == 1 && ClampPage(2, 3) == 2
    ensures ClampPage(7, 0) == 1 && ClampPage(0, 0) == 1
  {
  }

  /** A page past the last one shows nothing; every page up to the last shows at least one project. */
  lemma PageNonEmptyIff(projects: seq<Project>, page: int)
    requires page >= 1
    ensures PageSlice(projects, page) != [] <==> page <= TotalPages(|projects|)
  {
    var n := |projects|;
    if page <= TotalPages(n) {
      assert PageStart(page) < n;
      assert |PageSlice(projects, page)| > 0;
    } else {
      assert page - 1 >= TotalPages(n);
      assert PageStart(page) >= TotalPages(n) * ItemsPerPage >= n;
    }
  }

  /** Pages `1..count` laid end to end. */
  function Pages(projects: seq<Project>, count: nat): seq<Project> {
    if count == 0 then [] else Pages(projects, count - 1) + PageSlice(projects, count)
  }

  /** The first `k` pages are the first `Min(5k, n)` projects. */
  lemma {:induction false} PagesArePrefix(projects: seq<Project>, k: nat)
    ensures Pages(projects, k) == projects[..Min(k * ItemsPerPage, |projects|)]
  {
    if k > 0 {
      PagesArePrefix(projects, k - 1);
      var lo := Min((k - 1) * ItemsPerPage, |projects|);
      var hi := Min(k * ItemsPerPage, |projects|);
      var page := PageSlice(projects, k);
      assert |page| == hi - lo;
      assert page == projects[lo..hi];
      assert projects[..lo] + projects[lo..hi] == projects[..hi];
    }
  }

  /** All the pages together are exactly the fetched projects, in order: each project is on exactly one page. */
  lemma PagesCoverAll(projects: seq<Project>)
    ensures Pages(projects, TotalPages(|projects|)) == projects
  {
    PagesArePrefix(projects, TotalPages(|projects|));
    assert projects[..|projects|] == projects;
  }

  /** Project `i` is on page `i / 5 + 1`, a page that exists, at position `i % 5`. */
  lemma PageOfIndex(projects: seq<Project>, i: nat)
    requires i < |projects|
    ensures ValidPage(i / ItemsPerPage + 1, TotalPages(|projects|))
    ensures PageSlice(projects, i / ItemsPerPage + 1)[i % ItemsPerPage] == projects[i]
  {
    var page := i / ItemsPerPage + 1;
    assert PageStart(page) + i % ItemsPerPage == i;
    assert (page - 1) * ItemsPerPage < |projects|;
  }

  /** Fetched in gallery order, everything on an earlier page comes before everything on a later one. */
  lemma PagesInOrder(projects: seq<Project>, p: int, q: int, x: nat, y: nat)
    requires InGalleryOrder(projects)
    requires 1 <= p < q
    requires x < |PageSlice(projects, p)| && y < |PageSlice(projects, q)|
    ensures ComesBefore(PageSlice(projects, p)[x], PageSlice(projects, q)[y])
  {
    assert PageSlice(projects, p)[x] == projects[PageStart(p) + x];
    assert PageSlice(projects, q)[y] == projects[PageStart(q) + y];
    assert PageStart(p) + x < PageStart(q) + y;
  }

  /** The numbered buttons are exactly the pages `goToPage` can land on, each leading to itself. */
  lemma PageButtonsAreThePages(total: nat, page: int)
    requires total >= 1
    ensures page in PageButtons(total) <==> ValidPage(page, total)
    ensures page in PageButtons(total) ==> ClampPage(page, total) == page
  {
    if ValidPage(page, total) {
      assert PageButtons(total)[page - 1] == page;
    }
  }

  // ---------------------------------------------------------------------
  // The modal's state
  // ---------------------------------------------------------------------

  /** How one `fetchProjects` call ends. */
  datatype FetchOutcome =
    | QueryFailed(message: string)            // the query reports `fetchError`
    | Rows(data: Option<seq<Project>>)        // the query returns `data`, possibly `null`
    | Threw                                   // the call throws

  /** What the main content area shows once nothing is loading and no error is set. */
  datatype Content =
    | NoProjects(platformName: string)
    | Grid(items: seq<Project>, prevDisabled: bool, buttons: seq<int>, current: int, nextDisabled: bool)

  /**
   * The modal's body for one render: the error line appears next to the
   * spinner only if both are set, which `Gallery.Valid` rules out.
   */
  datatype View = View(title: string, caption: Caption, spinner: bool, errorLine: Option<string>, main: Option<Content>)

  class Gallery {
    var platform: Option<Platform>
    var projects: seq<Project>
    var loading: bool
    var error: Option<string>
    var currentPage: int

    /**
     * A fetch clears the error when it starts, and the page is always one of
     * the gallery's pages: it is reset to 1 whenever the projects may change.
     */
    predicate Valid()
      reads this
    {
      (loading ==> error.None? && currentPage == 1)
      && ValidPage(currentPage, TotalPages(|projects|))
    }

    /** Mounting: empty state, then both effects run once for the initial platform. */
    constructor (initial: Option<Platform>)
      ensures Valid()
      ensures platform == initial && projects == [] && currentPage == 1
      ensures loading == initial.Some? && error == None
    {
      platform := initial;
      projects := [];
      loading := initial.Some?;
      error := None;
      currentPage := 1;
    }

    /**
     * A new `platform` prop. Only a change runs the effects: the page goes
     * back to 1, and for a non-null platform a fetch starts.
     */
    method SetPlatform(p: Option<Platform>)
      requires Valid()
      modifies this
      ensures Valid()
      ensures platform == p && projects == old(projects)
      ensures p == old(platform) ==> currentPage == old(currentPage) && loading == old(loading) && error == old(error)
      ensures p != old(platform) ==> currentPage == 1
      ensures p != old(platform) && p.Some? ==> loading && error == None
      ensures p != old(platform) && p.None? ==> loading == old(loading) && error == old(error)
    {
      if p != platform {
        currentPage := 1;
        if p.Some? {
          loading := true;
          error := None;
        }
      }
      platform := p;
    }

    /** The pending fetch completes; `finally` always clears `loading`. */
    method CompleteFetch(outcome: FetchOutcome)
      requires Valid() && loading
      modifies this
      ensures Valid()
      ensures !loading && platform == old(platform) && currentPage == 1
      ensures outcome.QueryFailed? ==> error == Some(outcome.message) && projects == old(projects)
      ensures outcome.Rows? ==> error == None && projects == outcome.data.GetOr([])
      ensures outcome.Threw? ==> error == Some("Failed to load projects") && projects == old(projects)
    {
      match outcome {
        case QueryFailed(message) =>
          error := Some(message);
        case Rows(data) =>
          projects := data.GetOr([]);
        case Threw =>
          error := Some("Failed to load projects");
      }
      loading := false;
    }

    /** `goToPage(page)`, from the arrows and the numbered buttons, which exist only once loading is over. */
    method GoToPage(page: int)
      requires Valid() && !loading
      modifies this
      ensures Valid()
      ensures currentPage == ClampPage(page, TotalPages(|projects|))
      ensures platform == old(platform) && projects == old(projects)
      ensures loading == old(loading) && error == old(error)
    {
      currentPage := ClampPage(page, TotalPages(|projects|));
    }

    /** What the modal renders: nothing without a platform. */
    function Render(): (v: Option<View>)
      reads this
      ensures v.Some? <==> platform.Some?
      ensures v.Some? ==> v.value.title == DisplayName(platform.value) + " Projects"
      ensures v.Some? ==> v.value.caption == HeaderCaption(|projects|, currentPage)
      ensures v.Some? ==> v.value.spinner == loading
      ensures v.Some? ==> (v.value.errorLine.Some? <==> Truthy(error))
      ensures v.Some? && v.value.errorLine.Some? ==> v.value.errorLine == error
      ensures v.Some? ==> (v.value.main.Some? <==> !loading && !Truthy(error))
      // "No projects yet", a state of its own and not an error.
      ensures v.Some? ==> (v.value.main == Some(NoProjects(DisplayName(platform.value)))
                           <==> !loading && !Truthy(error) && |projects| == 0)
      ensures v.Some? && v.value.main.Some? ==> (v.value.main.value.Grid? <==> |projects| > 0)
      ensures v.Some? && v.value.main.Some? && v.value.main.value.Grid? ==>
        var g := v.value.main.value;
        var total := TotalPages(|projects|);
        && g.items == PageSlice(projects, currentPage) && |projects| > 0
        && g.current == currentPage
        && g.prevDisabled == PrevDisabled(currentPage)
        && g.buttons == PageButtons(total)
        && g.nextDisabled == NextDisabled(currentPage, total)
    {
      if platform.None? then None
      else
        var n := |projects|;
        var total := TotalPages(n);
        var name := DisplayName(platform.value);
        var main :=
          if loading || Truthy(error) then None
          else if n == 0 then Some(NoProjects(name))
          else Some(Grid(PageSlice(projects, currentPage), PrevDisabled(currentPage),
                         PageButtons(total), currentPage, NextDisabled(currentPage, total)));
        Some(View(name + " Projects", HeaderCaption(n, currentPage), loading,
                  if Truthy(error) then error else None, main))
    }

    /** In a valid state exactly one of spinner, error line and main content is shown, and the grid's page is non-empty. */
    lemma ExactlyOnePanel()
      requires Valid() && platform.Some?
      ensures var v := Render().value;
        (if v.spinner then 1 else 0) + (if v.errorLine.Some? then 1 else 0) + (if v.main.Some? then 1 else 0) == 1
      ensures var v := Render().value;
        v.main.Some? && v.main.value.Grid? ==> v.main.value.items != []
    {
      var v := Render().value;
      if v.main.Some? && v.main.value.Grid? {
        PageNonEmptyIff(projects, currentPage);
      }
    }
  }
}
