# FitnessApp domain model in Dafny

FitnessApp is an ASP.NET Core server with an Angular client. Users register a daily calorie goal and a weekly training schedule. They log the recipes they eat and the workouts they do. A dashboard shows what they ate and trained today against their targets. This project models the server's domain logic and three client pages, and proves properties of the model.

The model has one store: the class `DbContext.FitnessAppDbContext`. Its fields are the keyed tables (users, products, recipes, exercises, workouts) as maps, and the two log tables (`UsersRecipes`, `UsersWorkouts`) as sequences.
- The services are methods that reassign the fields they change.
- Each method states the whole new state, and that the store's invariant `Valid()` still holds.
- The read operations are functions of a `Tables` snapshot.
- The current instant and the current user's name are parameters, so every operation is deterministic.

What is modelled:

- **Change tracking and the audit hook** (`change_tracking.dfy`). `ApplyAuditInformation` is a per-entry state transition:
  - a Deleted deletable entity becomes Modified with soft-delete stamps;
  - an Added audited entity gets created stamps;
  - a Modified one gets modified stamps;
  - everything else is left alone.

  The `ChangeTracker` class runs the transition in a loop over its entries. Both `SaveChanges` and `SaveChangesAsync` call the hook before the base save.
- **The tables and their invariants** (`db_context.dfy`):
  - the query filters, i.e. visibility;
  - the composite keys of the log and join tables;
  - referential integrity, stated as `Consistent`.
- **The log store** (`log_store.dfy`). It adds log rows and finds and soft-deletes them, keyed by (user, item, instant).
- **The list merge of recipe and workout `Update`** (`list_merge.dfy`):
  - the foreach loop as the method `MergeLines`;
  - a declarative result `Merged`;
  - the lemmas that say what `Merged` is.
- **The recipe, workout, product and exercise services** (`recipes.dfy`, `workouts.dfy`, `products.dfy`, `exercises.dfy`). Each has listings, details, create, update and delete, and, for recipes and workouts, logging, with their not-found errors.
- **The identity service** (`identity.dfy`, `macro_targets.dfy`, `schedule.dfy`, `dashboard.dfy`):
  - registration and the personal-information update, with their target rules;
  - the macro-target calculator;
  - the schedule's comma join and split, and `int.Parse`;
  - the daily dashboard aggregation.
- **The entities' derived properties** (`product.dfy`, `user.dfy`): the product's calorie count and the user's weekly goal.
- **The System.DateTime parts the dashboard relies on** (`calendar.dfy`): the UTC date and the day of the week.
- **The client pages** (`listing_filters.dfy`, `recipes_page.dfy`, `workouts_page.dfy`, `homepage.dfy`):
  - the five-flag filter state machine of the recipes and workouts pages;
  - the homepage's protein doughnut chart.

Some behaviour is modelled on the code rather than on the documentation around it:

- The dashboard loads its logs through `Include` of a required principal that has a query filter. EF Core makes that an inner join, so the logs of a soft-deleted recipe or workout drop out of the dashboard. The model follows this rather than assuming such logs cannot exist (`Dashboard.DeletedRecipeLeavesDashboard`).
- Products declare no query filter. A deleted product therefore stays in every product listing and in its details (`Products.DeletedProductStillListed`).
- Listing and detail `TotalCalories` of a recipe ignore the quantities: it is the sum, over the recipe's lines, of 4·carbs + 4·protein + 9·fat. The dashboard, by contrast, multiplies by the quantity and uses the truncated `Calories` property.

## Model


| member | source | states |
|---|---|---|
| ChangeTracking.AuditEntry | Server/FitnessApp.Server/Data/FitnessAppDbContext.cs:126-157 | A Deleted deletable entry becomes Modified with IsDeleted, DeletedOn = now and DeletedBy = the user name, and gets no modified stamp. An Added audited entry gets CreatedOn/CreatedBy. A Modified one gets ModifiedOn/ModifiedBy. Every other entry is unchanged, a Deleted non-deletable one included. |
| ChangeTracking.CreatedAudit | Server/FitnessApp.Server/Data/FitnessAppDbContext.cs:146-150 | An inserted entity's audit is created at now by the user name, never modified. |
| ChangeTracking.ModifiedAudit | Server/FitnessApp.Server/Data/FitnessAppDbContext.cs:151-155 | An update keeps the created stamps and sets ModifiedOn = now and ModifiedBy = the user name. |
| ChangeTracking.RemovedDeletion | Server/FitnessApp.Server/Data/FitnessAppDbContext.cs:132-141 | A removed deletable entity ends up flagged deleted at now by the user name. |
| ChangeTracking.DeletableNeverHardDeleted | Server/FitnessApp.Server/Data/FitnessAppDbContext.cs:130-141 | After the hook a deletable entity is never in the Deleted state. |
| ChangeTracking.HardDeleteExactlyForNonDeletable | Server/FitnessApp.Server/Data/FitnessAppDbContext.cs:130-156 | An entry is still Deleted after the hook iff it was Deleted and is not deletable: a hard delete. |
| ChangeTracking.AuditKeepsPending | Server/FitnessApp.Server/Data/FitnessAppDbContext.cs:126-157 | The hook makes an entry pending iff it was pending before. |
| ChangeTracking.AuditAll | Server/FitnessApp.Server/Data/FitnessAppDbContext.cs:122-157 | The hook maps every tracked entry, position by position, through the same transition. |
| ChangeTracking.PendingCountAudited | Server/FitnessApp.Server/Data/FitnessAppDbContext.cs:42-54 | The hook does not change how many rows a save writes. |
| ChangeTracking.PendingCount | Server/FitnessApp.Server/Data/FitnessAppDbContext.cs:42-54 | The count is the number of positions holding an Added, Modified or Deleted entry, the rows a save writes. |
| ChangeTracking.Accepted | Server/FitnessApp.Server/Data/FitnessAppDbContext.cs:46 | Accepting one entry turns Added and Modified into Unchanged and keeps every other column. |
| ChangeTracking.AcceptAllChanges | Server/FitnessApp.Server/Data/FitnessAppDbContext.cs:46 | After a save that accepts its changes, every tracked entry is Unchanged or Detached. An entry stays, as `Accepted` gives it, iff it was not Deleted. |
| ChangeTracking.AcceptAllChangesConcat | Server/FitnessApp.Server/Data/FitnessAppDbContext.cs:46 | Accepting works entry by entry, so the tracker's order is kept. |
| ChangeTracking.AcceptAllChangesOne | Server/FitnessApp.Server/Data/FitnessAppDbContext.cs:46 | A Deleted entry leaves the tracker; any other stays as `Accepted` gives it. |
| ChangeTracking.ChangeTracker.ApplyAuditInformation | Server/FitnessApp.Server/Data/FitnessAppDbContext.cs:122-157 | The ForEach loop leaves the tracker with exactly `AuditAll` of its old entries. |
| ChangeTracking.ChangeTracker.SaveChanges | Server/FitnessApp.Server/Data/FitnessAppDbContext.cs:42-47 | The hook runs before the base save. The save writes as many rows as were pending, and leaves the audited entries, accepted if asked. |
| ChangeTracking.ChangeTracker.SaveChangesAsync | Server/FitnessApp.Server/Data/FitnessAppDbContext.cs:49-54 | The same as SaveChanges: the hook runs first on the asynchronous path too. |
| DbContext.FitnessAppDbContext.constructor | Server/FitnessApp.Server/Data/FitnessAppDbContext.cs:19-39 | A new context has empty tables, which satisfy the invariants. |
| LogStore.NewLog | Server/FitnessApp.Server/Features/Recipes/RecipeService.cs:106-111 | A new log row has the key (user, item, now), is visible, and is stamped as created. |
| LogStore.FindVisibleLog | Server/FitnessApp.Server/Features/Recipes/RecipeService.cs:138-139 | FirstOrDefault through the query filter. It gives the first visible row with exactly the key (user, item, instant), or -1 iff there is none. |
| LogStore.SoftDeletedLog | Server/FitnessApp.Server/Features/Recipes/RecipeService.cs:145-148 | A soft-deleted log keeps its key and becomes invisible, with IsDeleted at now by the user and a modified stamp. |
| LogStore.AddKeepsKeysUnique | Server/FitnessApp.Server/Data/FitnessAppDbContext.cs:83 | Logging with a fresh key keeps the composite key (UserId, RecipeId, DateLogged) unique. |
| LogStore.AddedLogIsFound | Server/FitnessApp.Server/Features/Recipes/RecipeService.cs:106-116 | A row just logged is what the filtered lookup of its key finds. |
| LogStore.SoftDeleteKeepsKeysUnique | Server/FitnessApp.Server/Data/FitnessAppDbContext.cs:82-83 | A soft delete changes no key, so the keys stay unique. |
| LogStore.SecondDeleteFindsNothing | Server/FitnessApp.Server/Features/Recipes/RecipeService.cs:138-151 | Once a log is soft-deleted, a second lookup of its key finds nothing. The second delete then reports not-found. |
| LogStore.RelogAddsSecondRow | Server/FitnessApp.Server/Features/Recipes/RecipeService.cs:106-116 | Logging the same item at another instant adds a second, distinct row, and both are found. |
| ListMerge.IndexOfId | Server/FitnessApp.Server/Features/Recipes/RecipeService.cs:200 | FirstOrDefault by id: the first index holding the id, or -1 iff none does. |
| ListMerge.WithoutId | Server/FitnessApp.Server/Data/FitnessAppDbContext.cs:115-117 | The lines kept are exactly those whose id is not the removed one. Unique ids stay unique. |
| ListMerge.Retained | Server/FitnessApp.Server/Features/Recipes/RecipeService.cs:196-197 | The existing lines kept are exactly those whose id the request names. Unique ids stay unique. |
| ListMerge.NewIds | Server/FitnessApp.Server/Features/Recipes/RecipeService.cs:205-212 | The appended ids are the request ids not already present, each once. |
| ListMerge.MergeLines | Server/FitnessApp.Server/Features/Recipes/RecipeService.cs:196-214 | The foreach loop, which updates a matching line in place and appends otherwise, computes `Merged(current, request)`. |
| ListMerge.MergeStateIsMerged | Server/FitnessApp.Server/Features/Recipes/RecipeService.cs:198-214 | Once the whole request has been walked, the working list is the declarative merge. |
| ListMerge.MergedIds | Server/FitnessApp.Server/Features/Recipes/RecipeService.cs:196-214 | The merged collection holds an id iff the request does. |
| ListMerge.MergedUnique | Server/FitnessApp.Server/Data/FitnessAppDbContext.cs:87 | The merge keeps the (RecipeId, ProductId) key unique. |
| ListMerge.MergedValues | Server/FitnessApp.Server/Features/Recipes/RecipeService.cs:198-204 | Every merged line carries the value of the last request line with its id. |
| ListMerge.MergedOrder | Server/FitnessApp.Server/Features/Recipes/RecipeService.cs:197-212 | The merge is the retained lines in their old order, followed by the new ids in request order. |
| ProductModel.Calories | Server/FitnessApp.Server/Data/Models/Eating/Product.cs:28 | Calories is 4·carbs + 4·protein + 9·fat truncated toward zero: within one below a non-negative energy, within one above a negative one. |
| ProductModel.CaloriesOfWholeGrams | Server/FitnessApp.Server/Data/Models/Eating/Product.cs:28 | With whole-gram macros no truncation happens, and Calories is 4·carbs + 4·protein + 9·fat exactly. |
| ProductModel.CaloriesIgnoreSugarAndSodium | Server/FitnessApp.Server/Data/Models/Eating/Product.cs:17-28 | Sugar and sodium do not change Calories. |
| ProductModel.NoMacrosNoCalories | Server/FitnessApp.Server/Data/Models/Eating/Product.cs:28 | A product with no carbs, protein or fat has 0 calories. |
| ProductModel.CaloriesMonotone | Server/FitnessApp.Server/Data/Models/Eating/Product.cs:28 | For non-negative macros, more of any macro never lowers Calories. |
| UserModel.WeeklyCalorieGoal | Server/FitnessApp.Server/Data/Models/User.cs:34-35 | The weekly goal is seven times the daily goal in 64-bit arithmetic: it lies in the long range and agrees with 7·goal modulo 2^64. |
| UserModel.WeeklyGoalIsSevenDays | Server/FitnessApp.Server/Data/Models/User.cs:35 | Without overflow the weekly goal is exactly 7·daily, a multiple of seven. |
| UserModel.WeeklyGoalFollowsDailyGoal | Server/FitnessApp.Server/Data/Models/User.cs:34-35 | The weekly goal is derived: changing the daily goal changes it at once. |
| UserModel.NewUser | Server/FitnessApp.Server/Data/Models/User.cs:13-37 | A new user has Gender Male, zero goal and targets, and default audit columns. |
| Models.DifficultyName | Server/FitnessApp.Server/Features/Recipes/RecipeService.cs:38 | Enum.GetName gives every difficulty a non-empty name. |
| Models.DifficultyNameInjective | Server/FitnessApp.Server/Features/Recipes/RecipeService.cs:38 | Two difficulties have the same name iff they are the same difficulty. |
| Recipes.TotalCaloriesIgnoresQuantities | Server/FitnessApp.Server/Features/Recipes/RecipeService.cs:49-50 | Two recipes naming the same products have the same listed TotalCalories, whatever the quantities. |
| Recipes.TotalCaloriesOfWholeGrams | Server/FitnessApp.Server/Features/Recipes/RecipeService.cs:49-50 | With whole-gram products, TotalCalories is the sum of the products' Calories. |
| Recipes.ProductLines | Server/FitnessApp.Server/Features/Recipes/RecipeService.cs:41-46 | There is one (product name, quantity) entry per line, in line order. |
| Recipes.Listing | Server/FitnessApp.Server/Features/Recipes/RecipeService.cs:34-51 | Each listing has IsMine iff the viewer owns the recipe, plus the recipe's id, name, difficulty name, photo, time to finish, product lines and TotalCalories. |
| Recipes.AllRecipes | Server/FitnessApp.Server/Features/Recipes/RecipeService.cs:27-52 | Exactly the recipes the query filter lets through are listed, each by its listing. |
| Recipes.AllRecipesByNames | Server/FitnessApp.Server/Features/Recipes/RecipeService.cs:54-62 | The result has one (id, name) per recipe the filter lets through, and no others. |
| Recipes.Details | Server/FitnessApp.Server/Features/Recipes/RecipeService.cs:154-178 | Details are present iff the recipe is visible, and then hold its fields, lines, IsMine and TotalCalories. |
| Recipes.NewRecipe | Server/FitnessApp.Server/Features/Recipes/RecipeService.cs:66-83 | The inserted recipe has the new id, the creator as owner, the request's lines, no deletion, and created stamps. |
| Recipes.UpdatedRecipe | Server/FitnessApp.Server/Features/Recipes/RecipeService.cs:188-214 | Update replaces the six scalar columns, sets the owner to the caller, and merges the lines. The recipe is stamped as modified exactly when a column changed. |
| Recipes.Create | Server/FitnessApp.Server/Features/Recipes/RecipeService.cs:64-90 | Create inserts `NewRecipe` under the new id, returns that id, and changes no other table. |
| Recipes.AddRecipeToUser | Server/FitnessApp.Server/Features/Recipes/RecipeService.cs:92-117 | A missing or deleted recipe gives "Recipe Not Found.". Then a missing user gives "User Not Found.". Neither changes anything. Otherwise exactly one log (user, recipe, now) is appended. |
| Recipes.Delete | Server/FitnessApp.Server/Features/Recipes/RecipeService.cs:119-134 | An unknown or deleted recipe gives "Recipe Not Found." and changes nothing. Otherwise the recipe is soft-deleted by the caller, with no ownership check. |
| Recipes.DeleteLoggedRecipe | Server/FitnessApp.Server/Features/Recipes/RecipeService.cs:136-152 | With no visible log of exactly (recipe, instant, user) it returns "Recipe log Not Found." and changes nothing. Otherwise only that log is soft-deleted. |
| Recipes.Update | Server/FitnessApp.Server/Features/Recipes/RecipeService.cs:180-219 | An unknown or deleted recipe gives "Recipe Not Found." and changes nothing. Otherwise only that recipe becomes `UpdatedRecipe`. |
| Recipes.CreatedRecipeDetails | Server/FitnessApp.Server/Features/Recipes/RecipeService.cs:64-90 | A created recipe keeps the tables consistent. Its details show it as the creator's, with the requested lines and their total. |
| Recipes.DeletedRecipeDisappears | Server/FitnessApp.Server/Data/FitnessAppDbContext.cs:60 | A deleted recipe leaves both listings and its details, and the other recipes stay. |
| Recipes.UpdatedRecipeLines | Server/FitnessApp.Server/Features/Recipes/RecipeService.cs:196-214 | After Update the product ids are exactly the request's, each once, and each quantity is the last requested for its id. |
| Workouts.ExerciseLines | Server/FitnessApp.Server/Features/Workouts/WorkoutService.cs:39-47 | There is one ExerciseInfo per workout line, with the exercise's name and description and the line's sets and repetitions. |
| Workouts.Listing | Server/FitnessApp.Server/Features/Workouts/WorkoutService.cs:34-55 | Each listing has IsMine iff the viewer owns the workout, plus its id, name, description, photo, time to finish, exercises, difficulty name and burned calories. |
| Workouts.AllWorkouts | Server/FitnessApp.Server/Features/Workouts/WorkoutService.cs:27-56 | Exactly the visible workouts are listed, each by its listing. |
| Workouts.AllWorkoutsByNames | Server/FitnessApp.Server/Features/Workouts/WorkoutService.cs:58-66 | The result has one (id, name) per visible workout. |
| Workouts.Details | Server/FitnessApp.Server/Features/Workouts/WorkoutService.cs:163-190 | Details are present iff the workout is visible, and then have the listing's fields, IsMine included. |
| Workouts.NewWorkout | Server/FitnessApp.Server/Features/Workouts/WorkoutService.cs:70-91 | The inserted workout has the request's lines and burned calories, the creator as owner, and created stamps. |
| Workouts.UpdatedWorkout | Server/FitnessApp.Server/Features/Workouts/WorkoutService.cs:200-227 | Update replaces name, description, time, difficulty and photo, makes the caller the owner, and merges the lines. CaloriesBurned stays unchanged. |
| Workouts.Create | Server/FitnessApp.Server/Features/Workouts/WorkoutService.cs:68-98 | Create inserts `NewWorkout` under the new id, returns that id, and changes no other table. |
| Workouts.AddWorkoutToUser | Server/FitnessApp.Server/Features/Workouts/WorkoutService.cs:136-161 | A missing or deleted workout gives "Recipe Not Found.". Then a missing user gives "User Not Found.". Neither changes anything. Otherwise exactly one log (user, workout, now) is appended. |
| Workouts.Delete | Server/FitnessApp.Server/Features/Workouts/WorkoutService.cs:100-116 | An unknown or deleted workout gives "Workout Not Found." and changes nothing. Otherwise it is flagged deleted at now by the caller. |
| Workouts.DeleteLoggedWorkout | Server/FitnessApp.Server/Features/Workouts/WorkoutService.cs:118-134 | With no visible log of exactly (workout, instant, user) it returns "Workout log Not Found." and changes nothing. Otherwise only that log is soft-deleted. |
| Workouts.Update | Server/FitnessApp.Server/Features/Workouts/WorkoutService.cs:192-232 | An unknown or deleted workout gives "Workout Not Found." and changes nothing. Otherwise only that workout becomes `UpdatedWorkout`. |
| Workouts.CreatedWorkoutDetails | Server/FitnessApp.Server/Features/Workouts/WorkoutService.cs:81-91 | A created workout is visible as the creator's, with one exercise line per request entry, in order, carrying that entry's sets and repetitions. |
| Workouts.DeletedWorkoutDisappears | Server/FitnessApp.Server/Data/FitnessAppDbContext.cs:91 | A deleted workout leaves both listings and its details, and the others stay. |
| Workouts.UpdatedWorkoutLines | Server/FitnessApp.Server/Features/Workouts/WorkoutService.cs:207-227 | After Update the exercise ids are exactly the request's, each once, and the sets and repetitions come from the last request entry with the id. |
| Products.AllProducts | Server/FitnessApp.Server/Features/Products/ProductService.cs:24-36 | As written: every product is listed, including deleted ones, with every nutrient but carbs, which keeps its default 0. |
| Products.AllProductsDropsCarbs | Server/FitnessApp.Server/Features/Products/ProductService.cs:27-35 | A product with carbs is listed with 0 carbs, which differs from its details. |
| Products.AllProductsWithCarbs | Server/FitnessApp.Server/Features/Products/ProductService.cs:24-36 | Corrected: every product is listed with the same fields its details show. |
| Products.ListingAgreesWithDetails | Server/FitnessApp.Server/Features/Products/ProductService.cs:27-35 | In the corrected listing, each product's entry equals its details. |
| Products.AllProductsByNames | Server/FitnessApp.Server/Features/Products/ProductService.cs:38-46 | The result has one (id, name) per stored product. |
| Products.Details | Server/FitnessApp.Server/Features/Products/ProductService.cs:82-96 | Details are present iff the id is stored, deleted or not, and then hold every field, carbs included. |
| Products.NewProduct | Server/FitnessApp.Server/Features/Products/ProductService.cs:50-58 | The inserted product has the request's name and five nutrients, and created stamps. |
| Products.Create | Server/FitnessApp.Server/Features/Products/ProductService.cs:48-65 | Create inserts `NewProduct` under the new id, returns it, and changes no other table. |
| Products.Delete | Server/FitnessApp.Server/Features/Products/ProductService.cs:67-80 | An unknown id gives "Product Not Found." and changes nothing. Otherwise the hook turns Remove into a soft delete of that product only. |
| Products.Update | Server/FitnessApp.Server/Features/Products/ProductService.cs:98-116 | An unknown id gives "Product Not Found." and changes nothing. Otherwise exactly that product's name and five nutrients are replaced. |
| Products.DeletedProductStillListed | Server/FitnessApp.Server/Features/Products/ProductService.cs:75 | With no query filter, a deleted product is still listed and found, and only its deletion columns change. |
| Products.UpdatedProductDetails | Server/FitnessApp.Server/Features/Products/ProductService.cs:106-113 | After Update the details show exactly the requested values. |
| Exercises.AllExercises | Server/FitnessApp.Server/Features/Exercises/ExerciseService.cs:22-31 | The result has one (id, name, description) per stored exercise. |
| Exercises.AllExercisesByNames | Server/FitnessApp.Server/Features/Exercises/ExerciseService.cs:33-41 | The result has exactly one (id, name) per stored exercise. |
| Exercises.Details | Server/FitnessApp.Server/Features/Exercises/ExerciseService.cs:73-83 | Details are present iff the id is stored, and then hold its name and description. |
| Exercises.Create | Server/FitnessApp.Server/Features/Exercises/ExerciseService.cs:43-56 | Create adds an exercise with the request's name and description under the new id, and returns it. |
| Exercises.CascadedWorkouts | Server/FitnessApp.Server/Data/FitnessAppDbContext.cs:115-117 | After the cascade no workout has a line for the exercise. Every other line stays, and no other column of a workout changes. |
| Exercises.Delete | Server/FitnessApp.Server/Features/Exercises/ExerciseService.cs:58-71 | An unknown id gives "Exercise Not Found." and changes nothing. Otherwise the row is removed outright, since the hook leaves a plain entity's removal as it is, and the workouts become `CascadedWorkouts`. |
| Exercises.CascadeKeepsConsistent | Server/FitnessApp.Server/Data/FitnessAppDbContext.cs:115-117 | Removing a stored exercise with its cascaded lines keeps the tables consistent, and no workout refers to it afterwards. |
| Exercises.Update | Server/FitnessApp.Server/Features/Exercises/ExerciseService.cs:85-99 | An unknown id gives "Exercise Not Found." and changes nothing. Otherwise only that exercise's name and description change. |
| Exercises.DeletedExerciseIsGone | Server/FitnessApp.Server/Features/Exercises/ExerciseService.cs:66 | A deleted exercise is gone from the listing, and its details are empty. |
| MacroTargets.CalculateTargetMacros | Server/FitnessApp.Server/Features/Identity/IdentityService.cs:249-254 | The three targets become the ones the daily goal determines, and no other field changes. |
| MacroTargets.TargetsOfNonNegativeGoal | Server/FitnessApp.Server/Features/Identity/IdentityService.cs:251-253 | For G ≥ 0 the targets are ⌊3G/10⌋/4, ⌊G/5⌋/9 and ⌊G/2⌋/4. |
| MacroTargets.TargetsFor2000 | Server/FitnessApp.Server/Features/Identity/IdentityService.cs:251-253 | A 2000 kcal goal gives 150 g protein, 44 g fat and 250 g carbs. |
| MacroTargets.TargetEnergyWithinGoal | Server/FitnessApp.Server/Features/Identity/IdentityService.cs:251-253 | The energy of the targets, 4P + 9F + 4C, lies between G − 16 and G. |
| MacroTargets.TargetsOfNegatedGoal | Server/FitnessApp.Server/Features/Identity/IdentityService.cs:251-253 | Because of truncating casts and division, a negated goal gives negated targets. |
| MacroTargets.TargetsNonNegative | Server/FitnessApp.Server/Features/Identity/IdentityService.cs:251-253 | A non-negative goal gives non-negative targets. |
| Schedule.Split | Server/FitnessApp.Server/Features/Identity/IdentityService.cs:46 | String.Split gives at least one piece, and no piece contains the separator. |
| Schedule.RemoveEmptyEntries | Server/FitnessApp.Server/Features/Identity/IdentityService.cs:46 | The result is exactly the non-empty pieces. |
| Schedule.SplitSchedule | Server/FitnessApp.Server/Features/Identity/IdentityService.cs:132 | The pieces read back are non-empty and hold no comma. |
| Schedule.SplitJoin | Server/FitnessApp.Server/Features/Identity/IdentityService.cs:132 | Splitting a join gives back the pieces, provided none contains the separator. |
| Schedule.RemoveEmptyKeepsNonEmpty | Server/FitnessApp.Server/Features/Identity/IdentityService.cs:132 | Dropping empty entries from non-empty pieces changes nothing. |
| Schedule.ScheduleRoundTrip | Server/FitnessApp.Server/Features/Identity/IdentityService.cs:132-148 | A list of non-empty, comma-free days, joined with ',' and split without empty pieces, comes back unchanged. |
| Schedule.SplitScheduleIdempotent | Server/FitnessApp.Server/Features/Identity/IdentityService.cs:132-148 | Storing what was read and reading it again gives the same days. |
| Schedule.TrimStartWhite | Server/FitnessApp.Server/Features/Identity/IdentityService.cs:46 | int.Parse skips leading white space: the result is a suffix that starts with no white space. |
| Schedule.TrimEndWhite | Server/FitnessApp.Server/Features/Identity/IdentityService.cs:46 | int.Parse skips trailing white space: the result is a prefix that ends with no white space. |
| Schedule.ParseInt32 | Server/FitnessApp.Server/Features/Identity/IdentityService.cs:46 | A parsed value lies in the Int32 range. None marks the exception thrown on anything else. |
| Schedule.ParseAll | Server/FitnessApp.Server/Features/Identity/IdentityService.cs:46 | The Select(int.Parse) succeeds iff every piece parses, and then gives each piece's value in order. |
| Schedule.CurrentDayNumber | Server/FitnessApp.Server/Features/Identity/IdentityService.cs:47 | Today's number is 1..7: 7 iff Sunday, otherwise the DayOfWeek value. |
| Schedule.CurrentDayNumberInjective | Server/FitnessApp.Server/Features/Identity/IdentityService.cs:47 | Two days have the same number iff they are the same day. |
| Schedule.ParseDayString | Server/FitnessApp.Server/Features/Identity/IdentityService.cs:46 | A single-digit day string parses back to its day. |
| Schedule.ParseAllDayStrings | Server/FitnessApp.Server/Features/Identity/IdentityService.cs:46 | A list of digit strings parses back to its days. |
| Schedule.ChosenDaysReadBack | Server/FitnessApp.Server/Features/Identity/IdentityService.cs:46 | Days 1..7 stored at registration are the training days the dashboard reads. |
| Calendar.DayOfWeekValue | Server/FitnessApp.Server/Features/Identity/IdentityService.cs:47 | The numeric DayOfWeek is 0..6, and 0 iff Sunday. |
| Calendar.DaysInMonth | Server/FitnessApp.Server/Features/Identity/IdentityService.cs:64-65 | A month has 28 to 31 days. |
| Calendar.WeekDay | Server/FitnessApp.Server/Features/Identity/IdentityService.cs:47 | DateTime.DayOfWeek is (whole days since 0001-01-01 + 1) mod 7. |
| Calendar.KnownMondays | Server/FitnessApp.Server/Features/Identity/IdentityService.cs:47 | 0001-01-01 and 2024-01-01 are Mondays. |
| Calendar.NextDayIsNextWeekDay | Server/FitnessApp.Server/Features/Identity/IdentityService.cs:47 | The next day of a month is the next day of the week. |
| Calendar.SameDateSameWeekDay | Server/FitnessApp.Server/Features/Identity/IdentityService.cs:47 | Instants of the same UTC date fall on the same weekday, so one clock reading serves both the rest-day test and the log filter. |
| Dashboard.RecipeCaloriesOfSinglePortions | Server/FitnessApp.Server/Features/Identity/IdentityService.cs:74 | With one portion of each product, the recipe's dashboard calories are the sum of its products' Calories. |
| Dashboard.RecipeCaloriesScale | Server/FitnessApp.Server/Features/Identity/IdentityService.cs:74 | Scaling every quantity by c scales the recipe's calories by c. |
| Dashboard.TodaysLogs | Server/FitnessApp.Server/Features/Identity/IdentityService.cs:58-66 | The rows read are exactly those that are not soft-deleted, belong to the user, were logged on today's UTC date, and name a visible item. |
| Dashboard.TodaysLogsConcat | Server/FitnessApp.Server/Features/Identity/IdentityService.cs:63-66 | Reading two stretches of a table is reading each in turn. |
| Dashboard.NoLogsOfUser | Server/FitnessApp.Server/Data/Models/User.cs:50-52 | A user with no log rows reads none. |
| Dashboard.VisibleRecipeIds | Server/FitnessApp.Server/Data/FitnessAppDbContext.cs:60 | The ids the recipe join can reach are exactly the visible recipes. |
| Dashboard.VisibleWorkoutIds | Server/FitnessApp.Server/Data/FitnessAppDbContext.cs:91 | The ids the workout join can reach are exactly the visible workouts. |
| Dashboard.TodaysLogsResolve | Server/FitnessApp.Server/Features/Identity/IdentityService.cs:58-66 | Every log read names an existing recipe or workout, and the recipe's lines name existing products. |
| Dashboard.RecipeSummary | Server/FitnessApp.Server/Features/Identity/IdentityService.cs:69-78 | A LoggedRecipes row has the log's recipe id and date and the recipe's name. |
| Dashboard.RecipeSummaries | Server/FitnessApp.Server/Features/Identity/IdentityService.cs:68-78 | There is one LoggedRecipes row per log read, in order. |
| Dashboard.WorkoutSummary | Server/FitnessApp.Server/Features/Identity/IdentityService.cs:104-111 | A LoggedWorkouts row has the log's workout id and date and the workout's name. |
| Dashboard.WorkoutSummaries | Server/FitnessApp.Server/Features/Identity/IdentityService.cs:103-111 | There is one LoggedWorkouts row per workout log read, in order. |
| Dashboard.RecipeTotalsMatchRows | Server/FitnessApp.Server/Features/Identity/IdentityService.cs:68-87 | Current calories, carbs, fats and proteins, each a sum over logs of Σ quantity × value, equal the sums of the matching LoggedRecipes column. |
| Dashboard.WorkoutTotalsMatchRows | Server/FitnessApp.Server/Features/Identity/IdentityService.cs:103-114 | BurnedCalories and TimeSpentTraining equal the sums of the LoggedWorkouts columns. |
| Dashboard.GetUserDashboardInfo | Server/FitnessApp.Server/Features/Identity/IdentityService.cs:36-118 | An unknown user gives only the error "Could not find user.", with IsSuccess false. Otherwise the response is present iff the schedule parses. On success it holds: IsRestDay iff today's number is not a training day; the targets copied from the user; one row per log read, each the summary of its log; totals equal to the rows' sums; CurrentSugars and CurrentSodium the sums of sugar and sodium eaten over today's logs. |
| Dashboard.EatenConcat | Server/FitnessApp.Server/Features/Identity/IdentityService.cs:80-81 | The calories of two stretches of logs add up. |
| Dashboard.RecipeLogKeepsConsistent | Server/FitnessApp.Server/Data/FitnessAppDbContext.cs:73-83 | A recipe log with a fresh key, for an existing user and recipe, keeps the tables consistent. |
| Dashboard.WorkoutLogKeepsConsistent | Server/FitnessApp.Server/Data/FitnessAppDbContext.cs:103-113 | The same holds for a workout log. |
| Dashboard.LoggingRecipeAddsItsCalories | Server/FitnessApp.Server/Features/Identity/IdentityService.cs:58-91 | Logging a visible recipe now adds its row and exactly its calories to the user's dashboard, and leaves training unchanged. |
| Dashboard.OthersLogsDoNotCount | Server/FitnessApp.Server/Features/Identity/IdentityService.cs:63-64 | Another user's log leaves this user's dashboard as it was. |
| Dashboard.DeletingLoggedRecipeRemovesItsCalories | Server/FitnessApp.Server/Data/FitnessAppDbContext.cs:82 | Soft-deleting one of today's logs removes its row and exactly its calories from the dashboard. |
| Dashboard.DeletedRecipeLeavesDashboard | Server/FitnessApp.Server/Features/Identity/IdentityService.cs:58-62 | Through the inner join of the filtered recipe, a soft-deleted recipe's logs drop out of the dashboard. |
| Dashboard.HiddenRecipeNotListed | Server/FitnessApp.Server/Features/Identity/IdentityService.cs:58-62 | No row of a successful dashboard names a recipe that the query filter hides. |
| Dashboard.LoggingWorkoutAddsItsTraining | Server/FitnessApp.Server/Features/Identity/IdentityService.cs:93-114 | Logging a visible workout now adds its row, its burned calories and its time to the dashboard. |
| Identity.RegisteredUser | Server/FitnessApp.Server/Features/Identity/IdentityService.cs:210-222 | Register builds a user with the request's fields, the days joined with ',', and targets that agree with the goal. |
| Identity.Register | Server/FitnessApp.Server/Features/Identity/IdentityService.cs:208-225 | If the user store accepts the new user, exactly that user is added with created stamps. Otherwise the errors are returned and the users table is unchanged. |
| Identity.GetUserPersonalInfo | Server/FitnessApp.Server/Features/Identity/IdentityService.cs:120-135 | The info is present iff the id is stored, with the schedule split back into its pieces and the stored goal. |
| Identity.RegisteredInfoReadsBack | Server/FitnessApp.Server/Features/Identity/IdentityService.cs:215 | The personal information a registration stores reads back as given, the schedule included. |
| Identity.NewUserStartsEmpty | Server/FitnessApp.Server/Data/Models/User.cs:50-52 | A new user's first dashboard shows nothing eaten or trained, and the targets derived from the goal. |
| Identity.UpdatedUser | Server/FitnessApp.Server/Features/Identity/IdentityService.cs:141-153 | Update sets the request's fields and the joined schedule. The targets are recomputed iff the goal changed, and otherwise kept. |
| Identity.UpdateKeepsTargetsConsistent | Server/FitnessApp.Server/Features/Identity/IdentityService.cs:149-153 | Targets that agree with the goal keep agreeing through any update. |
| Identity.UpdateUserPersonalInfo | Server/FitnessApp.Server/Features/Identity/IdentityService.cs:137-163 | An unknown user is the exception path (None) and changes nothing. A rejected update returns the errors and changes nothing. Otherwise only that user becomes `UpdatedUser`, with a modified stamp. |
| Identity.UpdatedInfoReadsBack | Server/FitnessApp.Server/Features/Identity/IdentityService.cs:141-148 | After a successful update the personal information reads back as submitted. |
| ListingFilters.Matching | Client/src/app/recipes/recipes.component.ts:62-98 | `Array.filter` keeps exactly the cards the filter's predicate holds for. |
| ListingFilters.MatchingIsSubsequence | Client/src/app/recipes/recipes.component.ts:62-98 | A filtered list is an order-preserving subsequence of the full list. |
| ListingFilters.TimeBucketsDisjoint | Client/src/app/recipes/recipes.component.ts:80-98 | Each card is in exactly one of the quick (< 15), medium (15 to < 45) and slow (≥ 45) buckets. |
| ListingFilters.TimeBucketsPartition | Client/src/app/workouts/workouts.component.ts:81-99 | The three bucket lists together hold every card of the full list exactly once. |
| ListingFilters.Toggled | Client/src/app/recipes/recipes.component.ts:56-99 | A show* button flips its own flag and turns every other flag off. |
| ListingFilters.ToggledHasAtMostOneOn | Client/src/app/recipes/recipes.component.ts:56-99 | After any button at most one flag is on. |
| ListingFilters.ToggleTwiceFromAllOff | Client/src/app/recipes/recipes.component.ts:56-99 | Pressing the same button twice from the start turns every flag off again. |
| ListingFilters.ToggleSwitchesFilter | Client/src/app/recipes/recipes.component.ts:56-99 | Pressing a button while another filter is on replaces that filter with this one. |
| ListingFilters.ShownAfter | Client/src/app/recipes/recipes.component.ts:62-98 | The shown list is the filter's cards of the full list while its flag is on, and the full list otherwise. |
| RecipesPage.RecipesComponent.constructor | Client/src/app/recipes/recipes.component.ts:16-22 | The page starts with every flag off. |
| RecipesPage.RecipesComponent.NgOnInit | Client/src/app/recipes/recipes.component.ts:29-35 | Both lists become the fetched recipes, and the flags are untouched. |
| RecipesPage.RecipesComponent.ShowAdmin | Client/src/app/recipes/recipes.component.ts:56-63 | The admin flag flips and the others go off. The screen shows the admin recipes of the full list, or all of them. At most one flag is on, and the shown list is a subsequence of the full list. |
| RecipesPage.RecipesComponent.ShowMine | Client/src/app/recipes/recipes.component.ts:65-72 | The same for the caller's own recipes. |
| RecipesPage.RecipesComponent.ShowQuickRecipes | Client/src/app/recipes/recipes.component.ts:74-81 | The same for recipes under 15 minutes. |
| RecipesPage.RecipesComponent.ShowMediumRecipes | Client/src/app/recipes/recipes.component.ts:83-90 | The same for recipes of 15 to under 45 minutes. |
| RecipesPage.RecipesComponent.ShowSlowRecipes | Client/src/app/recipes/recipes.component.ts:92-99 | The same for recipes of 45 minutes or more. |
| RecipesPage.RecipesComponent.OnDialogClosed | Client/src/app/recipes/recipes.component.ts:101-111 | Reloading after the dialog closes resets both lists to the fetched data and leaves the flags as they were. |
| WorkoutsPage.WorkoutsComponent.constructor | Client/src/app/workouts/workouts.component.ts:16-22 | The page starts with every flag off. |
| WorkoutsPage.WorkoutsComponent.NgOnInit | Client/src/app/workouts/workouts.component.ts:30-36 | Both lists become the fetched workouts, and the flags are untouched. |
| WorkoutsPage.WorkoutsComponent.ShowAdmin | Client/src/app/workouts/workouts.component.ts:57-64 | The admin flag flips and the others go off. The screen shows exactly the isAdmin workouts, or all of them. Valid holds. |
| WorkoutsPage.WorkoutsComponent.ShowMine | Client/src/app/workouts/workouts.component.ts:66-73 | The same for exactly the isMine workouts. |
| WorkoutsPage.WorkoutsComponent.ShowQuickWorkouts | Client/src/app/workouts/workouts.component.ts:75-82 | The same for workouts under 15 minutes. |
| WorkoutsPage.WorkoutsComponent.ShowMediumWorkouts | Client/src/app/workouts/workouts.component.ts:84-91 | The same for workouts of 15 to under 45 minutes. |
| WorkoutsPage.WorkoutsComponent.ShowSlowWorkouts | Client/src/app/workouts/workouts.component.ts:93-100 | The same for workouts of 45 minutes or more. |
| WorkoutsPage.WorkoutsComponent.OnDialogClosed | Client/src/app/workouts/workouts.component.ts:102-112 | Reloading resets both lists without clearing the flags. |
| Homepage.ProteinSlices | Client/src/app/homepage/homepage.component.ts:64-71 | If the target is met, the chart has the single slice currentProteins. Otherwise it has two slices, [current, target − current], which add up to the target, and the remaining slice is strictly positive. |
| Homepage.ChartAfterLoad | Client/src/app/homepage/homepage.component.ts:64-72 | As written: the data is the protein slices. A met target sets the one label and the green colour. A missed target keeps whatever labels and colours were there. |
| Homepage.FirstLoadInStep | Client/src/app/homepage/homepage.component.ts:64-72 | On the first load the labels and colours match the slices. |
| Homepage.LabelsFallOutOfStep | Client/src/app/homepage/homepage.component.ts:69-72 | A met target followed by a missed one leaves one label and one colour for two slices. |
| Homepage.ChartAfterLoadCorrected | Client/src/app/homepage/homepage.component.ts:64-72 | Corrected: the labels and colours always match the slices. |
| Homepage.CorrectedAgreesWithWritten | Client/src/app/homepage/homepage.component.ts:64-72 | The corrected load agrees with the written one on the first load and whenever the target is met. |
| Homepage.HomepageComponent.constructor | Client/src/app/homepage/homepage.component.ts:26-38 | The component starts with no dashboard, hasMetTarget false, two labels, no data and the two-slice colours. |
| Homepage.HomepageComponent.LoadDashboardInfo | Client/src/app/homepage/homepage.component.ts:60-74 | The component stores the data and sets hasMetTarget iff currentProteins ≥ targetProteins. The chart becomes `ChartAfterLoad` of the old chart. |
| Homepage.HomepageComponent.LoadDashboardInfoCorrected | Client/src/app/homepage/homepage.component.ts:60-74 | The same with the corrected chart rule, which keeps the chart in step with hasMetTarget. |

## Left out

- Seeding and startup (`ApplicationBuilderExtensions.cs`, `Program.cs`), controllers, migrations, Angular services, routing and the auth guard: these are I/O and HTTP plumbing.
- `GenerateJwtToken`, `ChangeUserPassword`, `RefreshSignInAsync` and the token in the update response: these are foreign identity and cryptography calls.
- `IsAdmin` in the listings and `Username` (the join with the user): both need `IsInRoleAsync` or the identity tables. `Card.isAdmin` is an input of the client model.
- Identity.Register: `UserManager.CreateAsync` is a parameter (`created`, `errors`). Password hashing, validation and name normalisation are not modelled.
- Identity.UpdateUserPersonalInfo: `UpdateAsync`'s verdict is a parameter (`updated`, `errors`). `FindByIdAsync` returning null throws NullReferenceException, modelled as `None`.
- `CurrentUserService`: the current user name is a parameter.
- `DateTime.UtcNow`: a single instant `now` per call. The dashboard reads the clock several times, and the readings could straddle midnight.
- Doubles are modelled as exact reals. The products' nutrients, quantities times values, and `CaloriesBurned` are affected.
- MacroTargets.CalculateTargetMacros: `G * 0.3` etc. are exact reals. For any realistic calorie goal the double product truncates to the same integer. Very large goals can differ by one: for G = 8 000 000 000 000 013 the double `G * 0.3` rounds up to 2400000000000004.0, while the exact product truncates to 2400000000000003. The source's protein target is then one larger than the model's.
- Dashboard.GetUserDashboardInfo: the sums are unbounded integers and reals. `TimeSpentTraining` is a checked 32-bit sum of `TimeToFinish` that throws OverflowException, failing the request, past 2^31 - 1; `CurrentCalories` is a checked 64-bit sum of `Quantity * Calories` products, which are themselves unchecked and wrap. Neither the exception nor the wrap is modelled.
- Identity.Register, Identity.UpdateUserPersonalInfo: the schedule is a `seq<string>`, which cannot be null. A request without a WorkoutSchedule makes `string.Join` throw ArgumentNullException in the source; that path is not modelled.
- Recipes.Create, Workouts.Create: `Consistent` does not include the owner key from `UserId` to the users table, so a create for an unknown user succeeds in the model where the database would reject the insert. The controllers pass the authenticated user's id.
- Dashboard.GetUserDashboardInfo: for an unknown user the source leaves `LoggedRecipes` and `LoggedWorkouts` null in this response; the model has no null and gives empty lists.
- Dashboard.GetUserDashboardInfo: `DashboardRecipeInfo.Calories` is a double holding a long sum. It is modelled as an integer.
- The order of `ToList()` results over keyed tables: the listings are maps keyed by id. The log tables are read without an `OrderBy`, so the database promises no order; the model assumes insertion order for them and for a recipe's lines.
- Workouts.UpdatedWorkout: the request carries `CaloriesBurned`, but Update does not assign it. The model keeps the stored value, as the code does.
- Orphan deletion of dropped `ProductRecipe`/`WorkoutExercise` rows: the merged collection is the state. Key collisions, i.e. the exception on a duplicate log timestamp, are a precondition (`KeyAbsent`).
- Exercises.Delete: the cascade to `WorkoutExercise` rests on EF's convention for a required foreign key with no configured delete behaviour; the schema in the migrations is not part of this model.
- Recipes.Create, Workouts.Create: a request that repeats a product or exercise id throws an identity conflict when the second join row with the same composite key is added. An id with no stored row throws a DbUpdateException at the save. Both exceptions are preconditions (`UniqueIds`, `LinesIn`/`ExerciseLinesIn`).
- Recipes.Update, Workouts.Update: on the found path, a request naming a product or exercise that has no row throws a DbUpdateException at the save. That exception is a precondition, required only when the item is visible. A repeated id is not an exception here: the second line updates the first.
- The `Gender` enum shows only `Male`; the model assumes `Male | Female`. `TrainingType` is kept as an integer.
- Homepage: `hasMetTarget` is undefined before the first load, modelled as false. The client lists are undefined before the first fetch, modelled as empty.
- Homepage and listing pages: `addRecipeToUser`/`addWorkoutToUser` and the quick-add forms are HTTP calls only. The chart type, plugins and event handlers are presentation.
- Form- and DOM-bound client code: `getAllSelected*`, the register wizard, and the login, personal-info and change-password forms.

## Findings

| source | as written | input that shows it | evidently intended | confidence | as-written member | corrected member |
|---|---|---|---|---|---|---|
| Server/FitnessApp.Server/Features/Products/ProductService.cs:27-35 | AllProducts' projection copies Id, Name, Fats, Protein, Sodium and Sugar, but not Carbs. | Any stored product with carbs 10.0 is listed with carbs 0. | The listing shows the same nutrients as Details, carbs included. | not executed | Products.AllProductsDropsCarbs | Products.ListingAgreesWithDetails |
| Client/src/app/homepage/homepage.component.ts:69-72 | When the target is not met, only the data is set. The labels and colours keep the values of a previous met branch. | Load with proteins 160 of 150, log a deletion, reload with 100 of 150. The chart then has two slices but one label and one colour. | Both branches set the labels and colours that belong to their slices. | not executed | Homepage.LabelsFallOutOfStep | Homepage.ChartAfterLoadCorrected |
