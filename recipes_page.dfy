/** The recipes page: the fetched list, the list on screen and the five filter toggles. */
module RecipesPage {
  import opened ListingFilters

  class RecipesComponent {
    var allRecipes: seq<Card>
    var shownRecipes: seq<Card>
    var shouldShowOnlyAdmin: bool
    var shouldShowOnlyMine: bool
    var shouldShowOnlyQuick: bool
    var shouldShowOnlyMedium: bool
    var shouldShowOnlySlow: bool

    function FlagState(): Flags
      reads this
    {
      Flags(shouldShowOnlyAdmin, shouldShowOnlyMine, shouldShowOnlyQuick, shouldShowOnlyMedium, shouldShowOnlySlow)
    }

    /** At most one filter is on and the screen shows a part of the fetched list, in its order. */
    ghost predicate Valid()
      reads this
    {
      AtMostOneOn(FlagState()) && Subsequence(shownRecipes, allRecipes)
    }

    /** The lists start empty until the request answers; every flag starts off. */
    constructor ()
      ensures FlagState() == AllOff && allRecipes == [] && shownRecipes == []
      ensures Valid()
    {
      allRecipes, shownRecipes := [], [];
      shouldShowOnlyAdmin, shouldShowOnlyMine, shouldShowOnlyQuick := false, false, false;
      shouldShowOnlyMedium, shouldShowOnlySlow := false, false;
    }

    /** ngOnInit's subscription: both lists become the fetched recipes; the flags are not touched. */
    method NgOnInit(recipes: seq<Card>)
      modifies this
      ensures allRecipes == recipes && shownRecipes == recipes
      ensures FlagState() == old(FlagState())
      ensures old(AtMostOneOn(FlagState())) ==> Valid()
    {
      allRecipes := recipes;
      shownRecipes := recipes;
      SubsequenceReflexive(recipes);
    }

    /** The common shape of the show* handlers' postconditions. */
    ghost predicate ShownFor(f: Filter, oldFlags: Flags, oldAll: seq<Card>)
      reads this
    {
      && FlagState() == Toggled(oldFlags, f)
      && allRecipes == oldAll
      && shownRecipes == ShownAfter(oldAll, FlagState(), f)
    }

    method ShowAdmin()
      modifies this
      ensures ShownFor(Admin, old(FlagState()), old(allRecipes))
      ensures Valid()
    {
      shouldShowOnlyAdmin := !shouldShowOnlyAdmin;
      shouldShowOnlyMine := false;
      shouldShowOnlyMedium := false;
      shouldShowOnlyQuick := false;
      shouldShowOnlySlow := false;
      shownRecipes := if shouldShowOnlyAdmin then Matching(allRecipes, Admin) else allRecipes;
      Settle(Admin);
    }

    method ShowMine()
      modifies this
      ensures ShownFor(Mine, old(FlagState()), old(allRecipes))
      ensures Valid()
    {
      shouldShowOnlyAdmin := false;
      shouldShowOnlyMine := !shouldShowOnlyMine;
      shouldShowOnlyMedium := false;
      shouldShowOnlyQuick := false;
      shouldShowOnlySlow := false;
      shownRecipes := if shouldShowOnlyMine then Matching(allRecipes, Mine) else allRecipes;
      Settle(Mine);
    }

    method ShowQuickRecipes()
      modifies this
      ensures ShownFor(Quick, old(FlagState()), old(allRecipes))
      ensures Valid()
    {
      shouldShowOnlyAdmin := false;
      shouldShowOnlyMine := false;
      shouldShowOnlyQuick := !shouldShowOnlyQuick;
      shouldShowOnlyMedium := false;
      shouldShowOnlySlow := false;
      shownRecipes := if shouldShowOnlyQuick then Matching(allRecipes, Quick) else allRecipes;
      Settle(Quick);
    }

    method ShowMediumRecipes()
      modifies this
      ensures ShownFor(Medium, old(FlagState()), old(allRecipes))
      ensures Valid()
    {
      shouldShowOnlyAdmin := false;
      shouldShowOnlyMine := false;
      shouldShowOnlyQuick := false;
      shouldShowOnlyMedium := !shouldShowOnlyMedium;
      shouldShowOnlySlow := false;
      shownRecipes := if shouldShowOnlyMedium then Matching(allRecipes, Medium) else allRecipes;
      Settle(Medium);
    }

    method ShowSlowRecipes()
      modifies this
      ensures ShownFor(Slow, old(FlagState()), old(allRecipes))
      ensures Valid()
    {
      shouldShowOnlyAdmin := false;
      shouldShowOnlyMine := false;
      shouldShowOnlyQuick := false;
      shouldShowOnlyMedium := false;
      shouldShowOnlySlow := !shouldShowOnlySlow;
      shownRecipes := if shouldShowOnlySlow then Matching(allRecipes, Slow) else allRecipes;
      Settle(Slow);
    }

    /** The facts behind Valid after a show* handler: one flag at most, and a subsequence on screen. */
    lemma Settle(f: Filter)
      requires AtMostOneOn(FlagState())
      requires shownRecipes == Matching(allRecipes, f) || shownRecipes == allRecipes
      ensures Valid()
    {
      MatchingIsSubsequence(allRecipes, f);
      SubsequenceReflexive(allRecipes);
    }

    /**
     * The subscription after the details dialog closes: both lists become
     * the refetched recipes while the flags keep their values, so a filter
     * shown as on no longer matches the list on screen.
     */
    method OnDialogClosed(recipes: seq<Card>)
      modifies this
      ensures allRecipes == recipes && shownRecipes == recipes
      ensures FlagState() == old(FlagState())
      ensures old(AtMostOneOn(FlagState())) ==> Valid()
    {
      allRecipes := recipes;
      shownRecipes := recipes;
      SubsequenceReflexive(recipes);
    }
  }
}
