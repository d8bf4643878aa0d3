/**
  The navigation sidebar: four items, one per study mode, each highlighted
  when its mode is the active one, plus an "Upload New File" button.
 */
module Sidebar {
  import opened StudyTypes

  datatype NavItem = NavItem(name: string, mode: StudyMode)

  /** The items in the order they are drawn. */
  const NavItems: seq<NavItem> := [
    NavItem("Summary", Summary),
    NavItem("Quiz", Quiz),
    NavItem("Flashcards", Flashcards),
    NavItem("Full Text", FullText)
  ]

  /** An item is drawn highlighted exactly when its mode is the active one;
      among the drawn items that is the one item of the active mode. */
  predicate IsActive(item: NavItem, activeMode: StudyMode)
    ensures item in NavItems ==> (IsActive(item, activeMode) <==> item == NavItems[NavIndex(activeMode)])
  {
    item.mode == activeMode
  }

  /** Position of the item that switches to mode `m`. */
  function NavIndex(m: StudyMode): (k: nat)
    ensures k < |NavItems| && NavItems[k].mode == m
  {
    match m
    case Summary => 0
    case Quiz => 1
    case Flashcards => 2
    case FullText => 3
  }

  /** The positions drawn highlighted for a given active mode. */
  function ActiveIndices(activeMode: StudyMode): (ks: set<nat>)
    ensures ks == {NavIndex(activeMode)}
    ensures |ks| == 1
  {
    var ks := set k: nat | k < |NavItems| && IsActive(NavItems[k], activeMode);
    assert forall k: nat :: k < |NavItems| && k != NavIndex(activeMode) ==> !IsActive(NavItems[k], activeMode);
    assert ks == {NavIndex(activeMode)};
    ks
  }

  /** What a click in the sidebar asks the app to do. */
  datatype Request = ModeChange(mode: StudyMode) | NewFile

  /** Clicking item `k` requests that item's mode. */
  function ClickNav(k: nat): (req: Request)
    requires k < |NavItems|
    ensures req.ModeChange? && NavIndex(req.mode) == k
    ensures IsActive(NavItems[k], req.mode)
  {
    ModeChange(NavItems[k].mode)
  }

  /** Clicking "Upload New File". */
  function ClickUploadNew(): (req: Request)
    ensures !req.ModeChange?
  {
    NewFile
  }

  /** For every mode exactly one item is highlighted, the one whose click
      requests that very mode; items of other modes are not highlighted. */
  lemma ExactlyOneActive(activeMode: StudyMode, k: nat)
    requires k < |NavItems|
    ensures IsActive(NavItems[k], activeMode) <==> k == NavIndex(activeMode)
    ensures ClickNav(NavIndex(activeMode)) == ModeChange(activeMode)
    ensures |ActiveIndices(activeMode)| == 1
  {
  }

  /** Distinct items stand for distinct modes, so a click identifies its item. */
  lemma ClickIdentifiesItem(j: nat, k: nat)
    requires j < |NavItems| && k < |NavItems|
    ensures ClickNav(j) == ClickNav(k) <==> j == k
  {
  }
}
