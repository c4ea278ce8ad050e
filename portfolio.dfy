/**
 * The portfolio section (components/Portfolio.tsx): a grid of three platform
 * cards whose clicks open the gallery modal for that platform. The section's
 * `selectedPlatform` is the modal's `platform` prop, so the section owns the
 * modal and passes every change on to it.
 */
module Portfolio {
  import opened Wrappers
  import opened Projects
  import PlatformModal

  /** The `url` each card passes to `handlePlatformClick`, in grid order. */
  const CardIdentifiers: seq<string> := ["tiktok", "youtube", "instagram"]

  /** `url === 'youtube' || url === 'tiktok' || url === 'instagram'`, as a platform. */
  function ParsePlatform(s: string): (p: Option<Platform>)
    ensures p.Some? <==> s == "youtube" || s == "tiktok" || s == "instagram"
  {
    if s == "youtube" then Some(YouTube)
    else if s == "tiktok" then Some(TikTok)
    else if s == "instagram" then Some(Instagram)
    else None
  }

  /** The identifiers accepted are exactly the platforms' names, each read back as its own platform. */
  lemma ParsePlatformNames(s: string, p: Platform)
    ensures ParsePlatform(p.Name()) == Some(p)
    ensures ParsePlatform(s) == Some(p) <==> s == p.Name()
  {
  }

  /** Every card in the grid opens a gallery. */
  lemma EveryCardIsAPlatform(i: nat)
    requires i < |CardIdentifiers|
    ensures ParsePlatform(CardIdentifiers[i]).Some?
    ensures ParsePlatform(CardIdentifiers[i]).value.Name() == CardIdentifiers[i]
  {
  }

  class PortfolioSection {
    var selectedPlatform: Option<Platform>
    const modal: PlatformModal.Gallery

    /** The modal always shows the selected platform. */
    predicate Valid()
      reads this, modal
    {
      modal.Valid() && modal.platform == selectedPlatform
    }

    /** Mounting: nothing selected, and the modal mounted closed. */
    constructor ()
      ensures Valid() && fresh(modal)
      ensures selectedPlatform == None && modal.projects == [] && !modal.loading
    {
      selectedPlatform := None;
      modal := new PlatformModal.Gallery(None);
    }

    /** `handlePlatformClick(url)`: a platform identifier selects that platform; anything else is ignored. */
    method HandlePlatformClick(url: string)
      requires Valid()
      modifies this, modal
      ensures Valid()
      ensures ParsePlatform(url).Some? ==> selectedPlatform == ParsePlatform(url)
      ensures ParsePlatform(url).None? ==> selectedPlatform == old(selectedPlatform)
      ensures modal.projects == old(modal.projects)
      // A new platform restarts the gallery: page 1, fetching.
      ensures selectedPlatform != old(selectedPlatform) ==>
        modal.currentPage == 1 && modal.loading && modal.error == None
      // An ignored click, or the platform already open, leaves the gallery as it was.
      ensures selectedPlatform == old(selectedPlatform) ==>
        modal.loading == old(modal.loading) && modal.error == old(modal.error)
        && modal.currentPage == old(modal.currentPage)
    {
      var p := ParsePlatform(url);
      if p.Some? {
        selectedPlatform := p;
        modal.SetPlatform(p);
      }
    }

    /**
     * The modal's `onClose`: nothing is selected any more, and the modal renders
     * nothing. Its platform becoming `null` is a change that resets its page,
     * but starts no fetch; what it had loaded stays.
     */
    method Close()
      requires Valid()
      modifies this, modal
      ensures Valid()
      ensures selectedPlatform == None && modal.Render() == None
      ensures old(selectedPlatform).Some? ==> modal.currentPage == 1
      ensures old(selectedPlatform).None? ==> modal.currentPage == old(modal.currentPage)
      ensures modal.projects == old(modal.projects) && modal.loading == old(modal.loading)
              && modal.error == old(modal.error)
    {
      selectedPlatform := None;
      modal.SetPlatform(None);
    }
  }

  /** Clicking a card on a fresh section opens the modal on that platform, loading, at page 1. */
  method ClickOpensGallery(i: nat) returns (platform: Option<Platform>, loading: bool, page: int)
    requires i < |CardIdentifiers|
    ensures platform.Some? && platform.value.Name() == CardIdentifiers[i]
    ensures loading && page == 1
  {
    var section := new PortfolioSection();
    section.HandlePlatformClick(CardIdentifiers[i]);
    platform := section.modal.platform;
    loading := section.modal.loading;
    page := section.modal.currentPage;
  }
}
