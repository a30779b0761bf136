/** The workouts page: the fetched list, the list on screen and the five filter toggles. */
module WorkoutsPage {
  import opened ListingFilters

  class WorkoutsComponent {
    var allWorkouts: seq<Card>
    var shownWorkouts: seq<Card>
    var shouldShowOnlyAdmin: bool
    var shouldShowOnlyMine: bool
    var shouldShowOnlyQuick: bool
    var shouldShowOnlyMedium: bool
    var shouldShowOnlySlow: bool

    function FlagState(): Flags
      reads this
    {
      Flags(shouldShowOnlyAdmin, shouldShowOnlyMine, shouldShowOnlyQuick, shouldShowOnlyMedium, shouldShowOnlySlow)
    }

    /** At most one filter is on and the screen shows a part of the fetched list, in its order. */
    ghost predicate Valid()
      reads this
    {
      AtMostOneOn(FlagState()) && Subsequence(shownWorkouts, allWorkouts)
    }

    /** The lists start empty until the request answers; every flag starts off. */
    constructor ()
      ensures FlagState() == AllOff && allWorkouts == [] && shownWorkouts == []
      ensures Valid()
    {
      allWorkouts, shownWorkouts := [], [];
      shouldShowOnlyAdmin, shouldShowOnlyMine, shouldShowOnlyQuick := false, false, false;
      shouldShowOnlyMedium, shouldShowOnlySlow := false, false;
    }

    /** ngOnInit's subscription: both lists become the fetched workouts; the flags are not touched. */
    method NgOnInit(workouts: seq<Card>)
      modifies this
      ensures allWorkouts == workouts && shownWorkouts == workouts
      ensures FlagState() == old(FlagState())
      ensures old(AtMostOneOn(FlagState())) ==> Valid()
    {
      allWorkouts := workouts;
      shownWorkouts := workouts;
      SubsequenceReflexive(workouts);
    }

    /** The common shape of the show* handlers' postconditions. */
    ghost predicate ShownFor(f: Filter, oldFlags: Flags, oldAll: seq<Card>)
      reads this
    {
      && FlagState() == Toggled(oldFlags, f)
      && allWorkouts == oldAll
      && shownWorkouts == ShownAfter(oldAll, FlagState(), f)
    }

    method ShowAdmin()
      modifies this
      ensures ShownFor(Admin, old(FlagState()), old(allWorkouts))
      ensures Valid()
    {
      shouldShowOnlyAdmin := !shouldShowOnlyAdmin;
      shouldShowOnlyMine := false;
      shouldShowOnlyMedium := false;
      shouldShowOnlyQuick := false;
      shouldShowOnlySlow := false;
      shownWorkouts := if shouldShowOnlyAdmin then Matching(allWorkouts, Admin) else allWorkouts;
      Settle(Admin);
    }

    method ShowMine()
      modifies this
      ensures ShownFor(Mine, old(FlagState()), old(allWorkouts))
      ensures Valid()
    {
      shouldShowOnlyAdmin := false;
      shouldShowOnlyMine := !shouldShowOnlyMine;
      shouldShowOnlyQuick := false;
      shouldShowOnlyMedium := false;
      shouldShowOnlySlow := false;
      shownWorkouts := if shouldShowOnlyMine then Matching(allWorkouts, Mine) else allWorkouts;
      Settle(Mine);
    }

    method ShowQuickWorkouts()
      modifies this
      ensures ShownFor(Quick, old(FlagState()), old(allWorkouts))
      ensures Valid()
    {
      shouldShowOnlyAdmin := false;
      shouldShowOnlyMine := false;
      shouldShowOnlyQuick := !shouldShowOnlyQuick;
      shouldShowOnlyMedium := false;
      shouldShowOnlySlow := false;
      shownWorkouts := if shouldShowOnlyQuick then Matching(allWorkouts, Quick) else allWorkouts;
      Settle(Quick);
    }

    method ShowMediumWorkouts()
      modifies this
      ensures ShownFor(Medium, old(FlagState()), old(allWorkouts))
      ensures Valid()
    {
      shouldShowOnlyAdmin := false;
      shouldShowOnlyMine := false;
      shouldShowOnlyQuick := false;
      shouldShowOnlyMedium := !shouldShowOnlyMedium;
      shouldShowOnlySlow := false;
      shownWorkouts := if shouldShowOnlyMedium then Matching(allWorkouts, Medium) else allWorkouts;
      Settle(Medium);
    }

    method ShowSlowWorkouts()
      modifies this
      ensures ShownFor(Slow, old(FlagState()), old(allWorkouts))
      ensures Valid()
    {
      shouldShowOnlyAdmin := false;
      shouldShowOnlyMine := false;
      shouldShowOnlyQuick := false;
      shouldShowOnlyMedium := false;
      shouldShowOnlySlow := !shouldShowOnlySlow;
      shownWorkouts := if shouldShowOnlySlow then Matching(allWorkouts, Slow) else allWorkouts;
      Settle(Slow);
    }

    /** The facts behind Valid after a show* handler: one flag at most, and a subsequence on screen. */
    lemma Settle(f: Filter)
      requires AtMostOneOn(FlagState())
      requires shownWorkouts == Matching(allWorkouts, f) || shownWorkouts == allWorkouts
      ensures Valid()
    {
      MatchingIsSubsequence(allWorkouts, f);
      SubsequenceReflexive(allWorkouts);
    }

    /**
     * The subscription after the details dialog closes: both lists become
     * the refetched workouts while the flags keep their values, so a filter
     * shown as on no longer matches the list on screen.
     */
    method OnDialogClosed(workouts: seq<Card>)
      modifies this
      ensures allWorkouts == workouts && shownWorkouts == workouts
      ensures FlagState() == old(FlagState())
      ensures old(AtMostOneOn(FlagState())) ==> Valid()
    {
      allWorkouts := workouts;
      shownWorkouts := workouts;
      SubsequenceReflexive(workouts);
    }
  }
}
