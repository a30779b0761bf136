/** The recipe service: listing, details, create, update, soft delete, and logging recipes for a user. */
module Recipes {
  import opened Wrappers
  import opened Calendar
  import opened ChangeTracking
  import opened ListMerge
  import opened ProductModel
  import opened Models
  import opened DbContext
  import opened LogStore

  /** The create and update request: the recipe's columns and its (product id, quantity) lines. */
  datatype RecipeRequest = RecipeRequest(
    name: string,
    description: string,
    timeToFinish: int,
    difficulty: Difficulty,
    notesAndTips: string,
    photo: string,
    products: seq<Line<int>>)

  datatype ProductQuantityListing = ProductQuantityListing(productName: string, quantity: int)

  datatype RecipeListing = RecipeListing(
    id: int,
    name: string,
    difficulty: string,
    photo: string,
    timeToFinish: int,
    products: seq<ProductQuantityListing>,
    isMine: bool,
    totalCalories: real)

  datatype RecipeDetails = RecipeDetails(
    id: int,
    name: string,
    description: string,
    notesAndTips: string,
    difficulty: string,
    photo: string,
    timeToFinish: int,
    products: seq<ProductQuantityListing>,
    isMine: bool,
    totalCalories: real)

  /**
   * TotalCalories of a listing: the sum over the recipe's lines of the
   * product's macro energy, 4·carbs + 4·protein + 9·fats. The quantity of a
   * line does not enter it.
   */
  function TotalCalories(lines: seq<Line<int>>, products: map<int, Product>): real
    requires LinesIn(lines, products)
  {
    if lines == [] then 0.0
    else
      var p := products[lines[0].id];
      MacroEnergy(p.carbs, p.protein, p.fats) + TotalCalories(lines[1..], products)
  }

  /** The sum of the products' Calories properties, one per line. */
  function CaloriesSum(lines: seq<Line<int>>, products: map<int, Product>): int
    requires LinesIn(lines, products)
  {
    if lines == [] then 0 else Calories(products[lines[0].id]) + CaloriesSum(lines[1..], products)
  }

  /** Two recipes naming the same products, whatever their quantities, have the same total. */
  lemma {:induction false} TotalCaloriesIgnoresQuantities(a: seq<Line<int>>, b: seq<Line<int>>, products: map<int, Product>)
    requires LinesIn(a, products) && Ids(a) == Ids(b)
    ensures LinesIn(b, products)
    ensures TotalCalories(a, products) == TotalCalories(b, products)
  {
    assert forall k :: 0 <= k < |b| ==> b[k].id == Ids(a)[k];
    if a != [] {
      assert Ids(a[1..]) == Ids(b[1..]) by {
        assert forall k :: 0 <= k < |a| - 1 ==> Ids(a[1..])[k] == Ids(a)[k + 1];
      }
      TotalCaloriesIgnoresQuantities(a[1..], b[1..], products);
    }
  }

  /** With whole-gram products the total is the sum of the products' Calories. */
  lemma {:induction false} TotalCaloriesOfWholeGrams(lines: seq<Line<int>>, products: map<int, Product>)
    requires LinesIn(lines, products)
    requires forall k :: 0 <= k < |lines| ==>
               var p := products[lines[k].id]; IsWhole(p.carbs) && IsWhole(p.protein) && IsWhole(p.fats)
    ensures TotalCalories(lines, products) == CaloriesSum(lines, products) as real
  {
    if lines != [] {
      CaloriesOfWholeGrams(products[lines[0].id]);
      TotalCaloriesOfWholeGrams(lines[1..], products);
    }
  }

  function ProductLines(lines: seq<Line<int>>, products: map<int, Product>): (ps: seq<ProductQuantityListing>)
    requires LinesIn(lines, products)
    ensures |ps| == |lines|
    ensures forall k :: 0 <= k < |lines| ==>
              ps[k] == ProductQuantityListing(products[lines[k].id].name, lines[k].value)
  {
    seq(|lines|, k requires 0 <= k < |lines| => ProductQuantityListing(products[lines[k].id].name, lines[k].value))
  }

  function Listing(r: Recipe, products: map<int, Product>, userId: Option<string>): (l: RecipeListing)
    requires LinesIn(r.productsQuantities, products)
    ensures l.isMine <==> userId == Some(r.userId)
    ensures l.totalCalories == TotalCalories(r.productsQuantities, products)
    ensures l.products == ProductLines(r.productsQuantities, products)
    ensures l.id == r.id && l.name == r.name && l.difficulty == DifficultyName(r.difficulty)
    ensures l.photo == r.photo && l.timeToFinish == r.timeToFinish
  {
    RecipeListing(r.id, r.name, DifficultyName(r.difficulty), r.photo, r.timeToFinish,
                  ProductLines(r.productsQuantities, products), userId == Some(r.userId),
                  TotalCalories(r.productsQuantities, products))
  }

  /** AllRecipes, keyed by id (the order of the listing is not modelled): every recipe the query filter lets through. */
  function AllRecipes(t: Tables, userId: Option<string>): (m: map<int, RecipeListing>)
    requires Consistent(t)
    ensures forall id :: id in m <==> RecipeVisible(t, id)
    ensures forall id :: id in m ==> id in t.recipes && m[id] == Listing(t.recipes[id], t.products, userId)
  {
    map id | id in t.recipes && !t.recipes[id].deletion.isDeleted :: Listing(t.recipes[id], t.products, userId)
  }

  /** AllRecipesByNames: the id and name of every visible recipe. */
  function AllRecipesByNames(t: Tables): (m: map<int, string>)
    ensures forall id :: id in m <==> RecipeVisible(t, id)
    ensures forall id :: id in m ==> id in t.recipes && m[id] == t.recipes[id].name
  {
    map id | id in t.recipes && !t.recipes[id].deletion.isDeleted :: t.recipes[id].name
  }

  /** Details: the recipe with this id, if the query filter lets it through. */
  function Details(t: Tables, id: int, userId: Option<string>): (d: Option<RecipeDetails>)
    requires Consistent(t)
    ensures d.Some? <==> RecipeVisible(t, id)
    ensures d.Some? ==>
              var r := t.recipes[id];
              && d.value.id == id && d.value.name == r.name && d.value.description == r.description
              && d.value.notesAndTips == r.notesAndTips && d.value.timeToFinish == r.timeToFinish
              && d.value.difficulty == DifficultyName(r.difficulty) && d.value.photo == r.photo
              && d.value.products == ProductLines(r.productsQuantities, t.products)
              && (d.value.isMine <==> userId == Some(r.userId))
              && d.value.totalCalories == TotalCalories(r.productsQuantities, t.products)
  {
    if RecipeVisible(t, id) then
      var r := t.recipes[id];
      Some(RecipeDetails(id, r.name, r.description, r.notesAndTips, DifficultyName(r.difficulty), r.photo,
                         r.timeToFinish, ProductLines(r.productsQuantities, t.products), userId == Some(r.userId),
                         TotalCalories(r.productsQuantities, t.products)))
    else None
  }

  /** The row Create inserts: the request's columns and lines, owned by the user, stamped as created. */
  function NewRecipe(id: int, model: RecipeRequest, userId: string, now: DateTime, userName: Option<string>): (r: Recipe)
    ensures r.id == id && r.userId == userId && r.productsQuantities == model.products
    ensures !r.deletion.isDeleted && r.audit == CreatedAudit(now, userName)
  {
    Recipe(id, model.name, model.timeToFinish, model.difficulty, model.photo, model.description,
           model.notesAndTips, model.products, userId, CreatedAudit(now, userName), BaseEntities.NotDeleted)
  }

  /** Whether the update assigns a column a different value, which is what makes the change tracker mark the recipe Modified. */
  predicate ColumnsChange(r: Recipe, model: RecipeRequest, userId: string) {
    r.name != model.name || r.description != model.description || r.timeToFinish != model.timeToFinish
    || r.difficulty != model.difficulty || r.notesAndTips != model.notesAndTips || r.photo != model.photo
    || r.userId != userId
  }

  /** The recipe after Update: the request's columns, the editor as owner, the merged lines. */
  function UpdatedRecipe(r: Recipe, model: RecipeRequest, userId: string, now: DateTime, userName: Option<string>): (u: Recipe)
    ensures u.id == r.id && u.deletion == r.deletion && u.userId == userId
    ensures u.name == model.name && u.description == model.description && u.timeToFinish == model.timeToFinish
    ensures u.difficulty == model.difficulty && u.notesAndTips == model.notesAndTips && u.photo == model.photo
    ensures u.productsQuantities == Merged(r.productsQuantities, model.products)
    ensures u.audit == if ColumnsChange(r, model, userId) then ModifiedAudit(r.audit, now, userName) else r.audit
  {
    r.(name := model.name, description := model.description, timeToFinish := model.timeToFinish,
       difficulty := model.difficulty, notesAndTips := model.notesAndTips, photo := model.photo,
       userId := userId, productsQuantities := Merged(r.productsQuantities, model.products),
       audit := if ColumnsChange(r, model, userId) then ModifiedAudit(r.audit, now, userName) else r.audit)
  }

  /** The recipe after Delete: flagged deleted by the user, then saved as an update. */
  function SoftDeletedRecipe(r: Recipe, userId: string, now: DateTime, userName: Option<string>): (d: Recipe)
    ensures d == r.(deletion := BaseEntities.Deletion(true, Some(now), Some(userId)),
                    audit := ModifiedAudit(r.audit, now, userName))
  {
    r.(deletion := BaseEntities.Deletion(true, Some(now), Some(userId)), audit := ModifiedAudit(r.audit, now, userName))
  }

  /** Create: inserts the recipe with its lines under the id the database assigns and returns that id. */
  method Create(db: FitnessAppDbContext, model: RecipeRequest, userId: string, newId: int,
                now: DateTime, userName: Option<string>) returns (id: int)
    requires db.Valid()
    requires newId !in db.recipes
    requires UniqueIds(model.products) && LinesIn(model.products, db.products)
    modifies db`recipes
    ensures id == newId
    ensures db.Snapshot() == old(db.Snapshot()).(recipes := old(db.recipes)[newId := NewRecipe(newId, model, userId, now, userName)])
    ensures db.Valid()
  {
    db.recipes := db.recipes[newId := NewRecipe(newId, model, userId, now, userName)];
    id := newId;
  }

  /** AddRecipeToUser: logs a visible recipe for an existing user at `now`. */
  method AddRecipeToUser(db: FitnessAppDbContext, id: int, userId: string, now: DateTime, userName: Option<string>)
    returns (r: Result)
    requires db.Valid()
    requires RecipeVisible(db.Snapshot(), id) && userId in db.users ==> KeyAbsent(db.usersRecipes, userId, id, now)
    modifies db`usersRecipes
    ensures !RecipeVisible(old(db.Snapshot()), id) ==>
              r == Failure("Recipe Not Found.") && db.Snapshot() == old(db.Snapshot())
    ensures RecipeVisible(old(db.Snapshot()), id) && userId !in db.users ==>
              r == Failure("User Not Found.") && db.Snapshot() == old(db.Snapshot())
    ensures RecipeVisible(old(db.Snapshot()), id) && userId in db.users ==>
              r == Success && db.usersRecipes == old(db.usersRecipes) + [NewLog(userId, id, now, userName)]
    ensures db.Valid()
  {
    if !RecipeVisible(db.Snapshot(), id) {
      return Failure("Recipe Not Found.");
    }
    if userId !in db.users {
      return Failure("User Not Found.");
    }
    AddKeepsKeysUnique(db.usersRecipes, userId, id, now, userName);
    db.usersRecipes := db.usersRecipes + [NewLog(userId, id, now, userName)];
    r := Success;
  }

  /** Delete: soft-deletes a visible recipe on behalf of the user. */
  method Delete(db: FitnessAppDbContext, id: int, userId: string, now: DateTime, userName: Option<string>)
    returns (r: Result)
    requires db.Valid()
    modifies db`recipes
    ensures !RecipeVisible(old(db.Snapshot()), id) ==>
              r == Failure("Recipe Not Found.") && db.Snapshot() == old(db.Snapshot())
    ensures RecipeVisible(old(db.Snapshot()), id) ==>
              r == Success && db.recipes == old(db.recipes)[id := SoftDeletedRecipe(old(db.recipes)[id], userId, now, userName)]
    ensures db.Valid()
  {
    if !RecipeVisible(db.Snapshot(), id) {
      return Failure("Recipe Not Found.");
    }
    db.recipes := db.recipes[id := SoftDeletedRecipe(db.recipes[id], userId, now, userName)];
    r := Success;
  }

  /** DeleteLoggedRecipe: soft-deletes the user's visible log of the recipe at `dateLogged`. */
  method DeleteLoggedRecipe(db: FitnessAppDbContext, id: int, dateLogged: DateTime, userId: string,
                            now: DateTime, userName: Option<string>) returns (r: Result)
    requires db.Valid()
    modifies db`usersRecipes
    ensures var i := FindVisibleLog(old(db.usersRecipes), userId, id, dateLogged);
            && (i == -1 ==> r == Failure("Recipe log Not Found.") && db.Snapshot() == old(db.Snapshot()))
            && (i >= 0 ==>
                  && r == Success
                  && db.usersRecipes == old(db.usersRecipes)[i := SoftDeletedLog(old(db.usersRecipes)[i], userId, now, userName)])
    ensures db.Valid()
  {
    var i := FindVisibleLog(db.usersRecipes, userId, id, dateLogged);
    if i == -1 {
      return Failure("Recipe log Not Found.");
    }
    SoftDeleteKeepsKeysUnique(db.usersRecipes, i, userId, now, userName);
    db.usersRecipes := db.usersRecipes[i := SoftDeletedLog(db.usersRecipes[i], userId, now, userName)];
    r := Success;
  }

  /** Update: replaces the columns of a visible recipe and synchronises its lines with the request. */
  method Update(db: FitnessAppDbContext, id: int, userId: string, model: RecipeRequest,
                now: DateTime, userName: Option<string>) returns (r: Result)
    requires db.Valid()
    requires RecipeVisible(db.Snapshot(), id) ==> LinesIn(model.products, db.products)
    modifies db`recipes
    ensures !RecipeVisible(old(db.Snapshot()), id) ==>
              r == Failure("Recipe Not Found.") && db.Snapshot() == old(db.Snapshot())
    ensures RecipeVisible(old(db.Snapshot()), id) ==>
              r == Success && db.recipes == old(db.recipes)[id := UpdatedRecipe(old(db.recipes)[id], model, userId, now, userName)]
    ensures db.Valid()
  {
    if !RecipeVisible(db.Snapshot(), id) {
      return Failure("Recipe Not Found.");
    }
    var recipe := db.recipes[id];
    var lines := MergeLines(recipe.productsQuantities, model.products);
    MergedUnique(recipe.productsQuantities, model.products);
    forall k | 0 <= k < |lines| ensures lines[k].id in db.products {
      MergedIds(recipe.productsQuantities, model.products, lines[k].id);
    }
    var audit := if ColumnsChange(recipe, model, userId) then ModifiedAudit(recipe.audit, now, userName) else recipe.audit;
    db.recipes := db.recipes[id := recipe.(name := model.name, description := model.description,
                                           timeToFinish := model.timeToFinish, difficulty := model.difficulty,
                                           notesAndTips := model.notesAndTips, photo := model.photo,
                                           userId := userId, productsQuantities := lines, audit := audit)];
    r := Success;
  }

  /** A created recipe is listed as the creator's, with the requested lines and their total. */
  lemma CreatedRecipeDetails(t: Tables, model: RecipeRequest, userId: string, newId: int, now: DateTime,
                             userName: Option<string>)
    requires Consistent(t) && newId !in t.recipes
    requires UniqueIds(model.products) && LinesIn(model.products, t.products)
    ensures var after := t.(recipes := t.recipes[newId := NewRecipe(newId, model, userId, now, userName)]);
            && Consistent(after)
            && Details(after, newId, Some(userId)) == Some(RecipeDetails(
                 newId, model.name, model.description, model.notesAndTips, DifficultyName(model.difficulty),
                 model.photo, model.timeToFinish, ProductLines(model.products, t.products), true,
                 TotalCalories(model.products, t.products)))
  {
  }

  /** A deleted recipe leaves every listing and its details; the others stay. */
  lemma DeletedRecipeDisappears(t: Tables, id: int, userId: string, now: DateTime, userName: Option<string>,
                                viewer: Option<string>)
    requires Consistent(t) && RecipeVisible(t, id)
    ensures var after := t.(recipes := t.recipes[id := SoftDeletedRecipe(t.recipes[id], userId, now, userName)]);
            && Consistent(after)
            && AllRecipes(after, viewer).Keys == AllRecipes(t, viewer).Keys - {id}
            && AllRecipesByNames(after).Keys == AllRecipesByNames(t).Keys - {id}
            && Details(after, id, viewer) == None
  {
  }

  /** After an update the recipe names exactly the requested products, each once, with its last requested quantity. */
  lemma UpdatedRecipeLines(r: Recipe, model: RecipeRequest, userId: string, now: DateTime, userName: Option<string>,
                           productId: int, k: int)
    requires UniqueIds(r.productsQuantities)
    requires 0 <= k < |UpdatedRecipe(r, model, userId, now, userName).productsQuantities|
    ensures var lines := UpdatedRecipe(r, model, userId, now, userName).productsQuantities;
            && UniqueIds(lines)
            && (HasId(lines, productId) <==> HasId(model.products, productId))
            && HasId(model.products, lines[k].id)
            && lines[k].value == LastValue(model.products, lines[k].id)
  {
    MergedUnique(r.productsQuantities, model.products);
    MergedIds(r.productsQuantities, model.products, productId);
    MergedValues(r.productsQuantities, model.products, k);
  }
}
