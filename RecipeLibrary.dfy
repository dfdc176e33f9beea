/** The recipe library: recipes in insertion order, looked up by name without
    regard to letter case, filtered by an exact ingredient, deleted and edited
    in place. */
module RecipeLibraries {
  import opened Results
  import opened Json
  import opened Recipes

  /** Letter case folded the ASCII way. */
  function Lower(c: char): char {
    if 'A' <= c <= 'Z' then (c as int + 32) as char else c
  }

  /** `String.equalsIgnoreCase`, over ASCII letters. */
  predicate EqualsIgnoreCase(a: string, b: string) {
    |a| == |b| && forall i :: 0 <= i < |a| ==> Lower(a[i]) == Lower(b[i])
  }

  predicate Matches(r: Recipe, name: string) {
    EqualsIgnoreCase(r.name, name)
  }

  predicate AllValid(rs: seq<Recipe>) {
    forall r | r in rs :: r.Valid()
  }

  /** The position of the first recipe whose name matches, or `|rs|` when
      none does. */
  function FirstMatch(rs: seq<Recipe>, name: string): (k: nat)
    ensures k <= |rs|
    ensures k < |rs| ==> Matches(rs[k], name)
  {
    if rs == [] then 0
    else if Matches(rs[0], name) then 0
    else 1 + FirstMatch(rs[1..], name)
  }

  /** No recipe before the first match matches. */
  lemma {:induction false} FirstMatchIsFirst(rs: seq<Recipe>, name: string)
    ensures forall i :: 0 <= i < FirstMatch(rs, name) ==> !Matches(rs[i], name)
  {
    if rs != [] && !Matches(rs[0], name) {
      FirstMatchIsFirst(rs[1..], name);
      forall i | 1 <= i < FirstMatch(rs, name)
        ensures !Matches(rs[i], name)
      {
        assert rs[i] == rs[1..][i - 1];
      }
    }
  }

  /** `getRecipeByName(name)`: nothing for a null or empty name, otherwise the
      first recipe, in insertion order, whose name matches ignoring case. */
  function Lookup(rs: seq<Recipe>, name: Option<string>): (r: Option<Recipe>)
    ensures !Present(name) ==> r == None
    ensures r.Some? ==> r.value in rs && Matches(r.value, name.value)
  {
    if !Present(name) then None
    else
      var k := FirstMatch(rs, name.value);
      if k < |rs| then Some(rs[k]) else None
  }

  /** A lookup finds something exactly when the name is given and some recipe
      matches it, and what it finds is a match with no match before it. */
  lemma LookupFindsFirst(rs: seq<Recipe>, name: Option<string>)
    ensures Lookup(rs, name).Some? <==> Present(name) && exists i :: 0 <= i < |rs| && Matches(rs[i], name.value)
    ensures Lookup(rs, name).Some? ==>
      exists k :: 0 <= k < |rs| && rs[k] == Lookup(rs, name).value && Matches(rs[k], name.value)
                  && forall i :: 0 <= i < k ==> !Matches(rs[i], name.value)
  {
    if Present(name) {
      FirstMatchIsFirst(rs, name.value);
    }
  }

  /** The recipes that list `ingredient` exactly (case-sensitive), in order. */
  function Keep(rs: seq<Recipe>, ingredient: string): (r: seq<Recipe>)
    ensures |r| <= |rs|
    ensures forall x :: x in r <==> x in rs && ingredient in x.ingredients
  {
    if rs == [] then []
    else if ingredient in rs[0].ingredients then [rs[0]] + Keep(rs[1..], ingredient)
    else Keep(rs[1..], ingredient)
  }

  /** Filtering distributes over concatenation, so it keeps the recipes'
      relative order. */
  lemma {:induction false} KeepConcat(xs: seq<Recipe>, ys: seq<Recipe>, ingredient: string)
    ensures Keep(xs + ys, ingredient) == Keep(xs, ingredient) + Keep(ys, ingredient)
  {
    if xs == [] {
      assert xs + ys == ys;
    } else {
      assert (xs + ys)[0] == xs[0];
      assert (xs + ys)[1..] == xs[1..] + ys;
      KeepConcat(xs[1..], ys, ingredient);
      if ingredient in xs[0].ingredients {
        assert [xs[0]] + (Keep(xs[1..], ingredient) + Keep(ys, ingredient))
            == ([xs[0]] + Keep(xs[1..], ingredient)) + Keep(ys, ingredient);
      }
    }
  }

  /** `filterRecipesByIngredient(ingredient)`: empty for a null or empty
      argument. */
  function Filter(rs: seq<Recipe>, ingredient: Option<string>): (r: seq<Recipe>)
    ensures !Present(ingredient) ==> r == []
    ensures Present(ingredient) ==> r == Keep(rs, ingredient.value)
  {
    if !Present(ingredient) then [] else Keep(rs, ingredient.value)
  }

  /** `List.remove(o)`: drops the first element equal to `x`, if any. */
  function RemoveFirst(rs: seq<Recipe>, x: Recipe): (r: seq<Recipe>)
    ensures x in rs ==> |r| == |rs| - 1
    ensures x !in rs ==> r == rs
  {
    if rs == [] then []
    else if rs[0] == x then rs[1..]
    else [rs[0]] + RemoveFirst(rs[1..], x)
  }

  /** Removal takes out exactly one copy of `x` and nothing else. */
  lemma {:induction false} RemoveFirstMultiset(rs: seq<Recipe>, x: Recipe)
    ensures multiset(RemoveFirst(rs, x)) == multiset(rs) - multiset{x}
  {
    if rs != [] {
      assert rs == [rs[0]] + rs[1..];
      if rs[0] != x {
        RemoveFirstMultiset(rs[1..], x);
      }
    }
  }

  lemma RemoveFirstKeepsValid(rs: seq<Recipe>, x: Recipe)
    requires AllValid(rs)
    ensures AllValid(RemoveFirst(rs, x))
  {
    var r := RemoveFirst(rs, x);
    RemoveFirstMultiset(rs, x);
    forall y | y in r
      ensures y.Valid()
    {
      assert y in multiset(r);
    }
  }

  /** Removing the looked-up recipe removes exactly the first match: nothing
      before it has the same name, so nothing before it equals it. */
  lemma {:induction false} RemoveFirstAtMatch(rs: seq<Recipe>, name: string)
    requires FirstMatch(rs, name) < |rs|
    ensures var k := FirstMatch(rs, name);
      RemoveFirst(rs, rs[k]) == rs[..k] + rs[k + 1..]
  {
    var k := FirstMatch(rs, name);
    if k > 0 {
      var tail := rs[1..];
      assert FirstMatch(tail, name) == k - 1;
      RemoveFirstAtMatch(tail, name);
      assert tail[k - 1] == rs[k];
      assert rs[0] != rs[k] by {
        assert !Matches(rs[0], name);
      }
      calc {
        RemoveFirst(rs, rs[k]);
        [rs[0]] + RemoveFirst(tail, rs[k]);
        [rs[0]] + (tail[..k - 1] + tail[k..]);
        { assert tail[..k - 1] == rs[1..k]; assert tail[k..] == rs[k + 1..]; }
        [rs[0]] + (rs[1..k] + rs[k + 1..]);
        { assert rs[..k] == [rs[0]] + rs[1..k]; }
        rs[..k] + rs[k + 1..];
      }
    }
  }

  /** What `deleteRecipe(name)` leaves and returns. */
  function Deleted(rs: seq<Recipe>, name: Option<string>): (r: (seq<Recipe>, bool))
    ensures r.1 ==> Present(name) && |r.0| == |rs| - 1
    ensures !r.1 ==> r.0 == rs
  {
    if !Present(name) then (rs, false)
    else
      var found := Lookup(rs, name);
      if found.Some? then (RemoveFirst(rs, found.value), true) else (rs, false)
  }

  /** What `editRecipe(name, newIngredients, newInstructions)` leaves and
      returns: the first match is taken out, then either a new recipe with
      the caller's spelling of the name is appended, or, when the new recipe
      cannot be built, the original is appended back at the end. */
  function Edited(rs: seq<Recipe>, name: Option<string>, ingredients: Option<seq<string>>,
                  instructions: Option<string>): (r: (seq<Recipe>, bool))
    ensures |r.0| == |rs|
    ensures r.1 ==> Present(name) && ingredients.Some? && instructions.Some?
    ensures r.1 ==> |rs| > 0 && r.0[|rs| - 1] == Recipe(name.value, ingredients.value, instructions.value)
  {
    if !Present(name) then (rs, false)
    else
      var found := Lookup(rs, name);
      if found.None? then (rs, false)
      else
        var rest := RemoveFirst(rs, found.value);
        var updated := NewRecipe(name, ingredients, instructions);
        if updated.Ok? then (rest + [updated.value], true)
        else (rest + [found.value], false)
  }

  /** Deletion succeeds exactly when the name is given and matches a recipe;
      it then removes that first match and keeps every other recipe in its
      relative order. Otherwise nothing changes. */
  lemma DeleteRemovesFirstMatch(rs: seq<Recipe>, name: Option<string>)
    ensures Deleted(rs, name).1 <==> Lookup(rs, name).Some?
    ensures !Deleted(rs, name).1 ==> Deleted(rs, name).0 == rs
    ensures Deleted(rs, name).1 ==>
      var k := FirstMatch(rs, name.value);
      k < |rs| && Deleted(rs, name).0 == rs[..k] + rs[k + 1..]
      && multiset(Deleted(rs, name).0) + multiset{rs[k]} == multiset(rs)
  {
    if Present(name) && FirstMatch(rs, name.value) < |rs| {
      DeleteAtMatch(rs, name.value);
    }
  }

  /** Deleting a name that matches removes the first match's position and
      exactly one copy of that recipe. */
  lemma DeleteAtMatch(rs: seq<Recipe>, name: string)
    requires name != [] && FirstMatch(rs, name) < |rs|
    ensures var k := FirstMatch(rs, name);
      Deleted(rs, Some(name)) == (rs[..k] + rs[k + 1..], true)
      && multiset(rs[..k] + rs[k + 1..]) + multiset{rs[k]} == multiset(rs)
  {
    var k := FirstMatch(rs, name);
    var x := rs[k];
    assert Lookup(rs, Some(name)) == Some(x);
    RemoveFirstAtMatch(rs, name);
    RemoveFirstMultiset(rs, x);
    assert x in multiset(rs);
  }

  /** An edit succeeds exactly when the name is given, matches a recipe, and
      both new ingredients and new instructions are given. The library keeps
      its size either way. */
  lemma EditOutcome(rs: seq<Recipe>, name: Option<string>, ingredients: Option<seq<string>>,
                    instructions: Option<string>)
    ensures Edited(rs, name, ingredients, instructions).1 <==>
      Lookup(rs, name).Some? && ingredients.Some? && instructions.Some?
    ensures |Edited(rs, name, ingredients, instructions).0| == |rs|
    ensures Lookup(rs, name).None? ==> Edited(rs, name, ingredients, instructions).0 == rs
  {
  }

  /** A successful edit removes the first match, keeps the other recipes in
      order, and appends the replacement under the caller's spelling. */
  lemma EditSuccess(rs: seq<Recipe>, name: string, ingredients: seq<string>, instructions: string)
    requires FirstMatch(rs, name) < |rs| && name != []
    ensures var k := FirstMatch(rs, name);
      Edited(rs, Some(name), Some(ingredients), Some(instructions))
        == (rs[..k] + rs[k + 1..] + [Recipe(name, ingredients, instructions)], true)
  {
    RemoveFirstAtMatch(rs, name);
  }

  /** A failed edit of an existing recipe keeps the same recipes (as a
      multiset), but the original moves to the end. */
  lemma EditFailureMovesOriginal(rs: seq<Recipe>, name: string, ingredients: Option<seq<string>>,
                                 instructions: Option<string>)
    requires FirstMatch(rs, name) < |rs| && name != []
    requires ingredients.None? || instructions.None?
    ensures var k := FirstMatch(rs, name);
      var (after, ok) := Edited(rs, Some(name), ingredients, instructions);
      !ok && after == rs[..k] + rs[k + 1..] + [rs[k]] && multiset(after) == multiset(rs)
  {
    RemoveFirstAtMatch(rs, name);
    RemoveFirstMultiset(rs, rs[FirstMatch(rs, name)]);
  }

  /** So a failed edit does not restore the library's order: the first of two
      recipes ends up last. */
  lemma EditFailureReorders()
    ensures var a := Recipe("Oats", ["oats"], "Soak.");
      var b := Recipe("Salad", ["kale"], "Toss.");
      Edited([a, b], Some("oats"), None, Some("Cook.")) == ([b, a], false)
  {
    var a := Recipe("Oats", ["oats"], "Soak.");
    var b := Recipe("Salad", ["kale"], "Toss.");
    assert Lower('O') == 'o';
    assert Matches(a, "oats");
    assert FirstMatch([a, b], "oats") == 0;
    assert Lookup([a, b], Some("oats")) == Some(a);
    assert [a, b][1..] == [b];
    assert RemoveFirst([a, b], a) == [b];
    assert NewRecipe(Some("oats"), None, Some("Cook.")).Err?;
    assert [b] + [a] == [b, a];
  }

  /** When the edited name matches a single recipe, looking it up afterwards
      finds the replacement. */
  lemma {:induction false} LookupAfterEdit(rs: seq<Recipe>, name: string, ingredients: seq<string>,
                                           instructions: string)
    requires name != []
    requires exists k :: 0 <= k < |rs| && Matches(rs[k], name)
    requires forall i, j :: 0 <= i < j < |rs| && Matches(rs[i], name) ==> !Matches(rs[j], name)
    ensures Lookup(Edited(rs, Some(name), Some(ingredients), Some(instructions)).0, Some(name))
            == Some(Recipe(name, ingredients, instructions))
  {
    var k := FirstMatch(rs, name);
    FirstMatchIsFirst(rs, name);
    EditSuccess(rs, name, ingredients, instructions);
    var rest := rs[..k] + rs[k + 1..];
    var after := rest + [Recipe(name, ingredients, instructions)];
    forall i | 0 <= i < |rest|
      ensures !Matches(after[i], name)
    {
      if i < k {
        assert after[i] == rs[i];
      } else {
        assert after[i] == rs[i + 1];
      }
    }
    assert EqualsIgnoreCase(name, name);
    FirstMatchPast(after, name, |rest|);
  }

  /** When the edited name matches a single recipe and the edit fails, looking
      the name up afterwards still finds the original, unchanged. */
  lemma {:induction false} LookupAfterFailedEdit(rs: seq<Recipe>, name: string, ingredients: Option<seq<string>>,
                                                 instructions: Option<string>)
    requires name != [] && (ingredients.None? || instructions.None?)
    requires FirstMatch(rs, name) < |rs|
    requires forall i, j :: 0 <= i < j < |rs| && Matches(rs[i], name) ==> !Matches(rs[j], name)
    ensures Lookup(Edited(rs, Some(name), ingredients, instructions).0, Some(name))
            == Some(rs[FirstMatch(rs, name)])
  {
    var k := FirstMatch(rs, name);
    FirstMatchIsFirst(rs, name);
    EditFailureMovesOriginal(rs, name, ingredients, instructions);
    var rest := rs[..k] + rs[k + 1..];
    var after := rest + [rs[k]];
    forall i | 0 <= i < |rest|
      ensures !Matches(after[i], name)
    {
      if i < k {
        assert after[i] == rs[i];
      } else {
        assert after[i] == rs[i + 1];
      }
    }
    FirstMatchPast(after, name, |rest|);
  }

  /** When no recipe before position `k` matches and the one at `k` does,
      the first match is at `k`. */
  lemma {:induction false} FirstMatchPast(rs: seq<Recipe>, name: string, k: nat)
    requires k < |rs| && Matches(rs[k], name)
    requires forall i :: 0 <= i < k ==> !Matches(rs[i], name)
    ensures FirstMatch(rs, name) == k
  {
    if k > 0 {
      FirstMatchPast(rs[1..], name, k - 1);
    }
  }

  /** With two recipes of the same name in different case, a successful edit
      replaces the first, but the lookup then finds the second, older one. */
  lemma EditHiddenByDuplicate()
    ensures var p := Recipe("Pasta", ["penne"], "Boil.");
      var q := Recipe("pasta", ["spaghetti"], "Boil.");
      var after := Edited([p, q], Some("Pasta"), Some(["fusilli"]), Some("Bake.")).0;
      after == [q, Recipe("Pasta", ["fusilli"], "Bake.")] && Lookup(after, Some("Pasta")) == Some(q)
  {
    var p := Recipe("Pasta", ["penne"], "Boil.");
    var q := Recipe("pasta", ["spaghetti"], "Boil.");
    assert Matches(p, "Pasta");
    assert Lower('P') == 'p';
    assert Matches(q, "Pasta");
    assert FirstMatch([p, q], "Pasta") == 0;
  }

  function RecipeItemsJson(rs: seq<Recipe>): (r: seq<Json>)
    ensures |r| == |rs| && forall i :: 0 <= i < |rs| ==> r[i] == RecipeJson(rs[i])
  {
    seq(|rs|, i requires 0 <= i < |rs| => RecipeJson(rs[i]))
  }

  /** `RecipeLibrary.toJson()`: one element per recipe, in library order. */
  function RecipesJson(rs: seq<Recipe>): Json {
    JArray(RecipeItemsJson(rs))
  }

  class RecipeLibrary {
    var recipes: seq<Recipe>

    ghost predicate Valid()
      reads this
    {
      AllValid(recipes)
    }

    constructor ()
      ensures Valid() && recipes == []
    {
      recipes := [];
    }

    /** `addRecipe(recipe)`: false for a null recipe; otherwise appended. */
    method AddRecipe(r: Option<Recipe>) returns (added: bool)
      requires Valid() && (r.Some? ==> r.value.Valid())
      modifies this
      ensures Valid()
      ensures added <==> r.Some?
      ensures added ==> recipes == old(recipes) + [r.value]
      ensures !added ==> recipes == old(recipes)
    {
      if r.None? {
        return false;
      }
      recipes := recipes + [r.value];
      return true;
    }

    /** `getAllRecipes()`: a copy of the list. */
    method GetAllRecipes() returns (rs: seq<Recipe>)
      ensures rs == recipes
    {
      rs := recipes;
    }

    /** `getRecipeByName(name)`. */
    function GetRecipeByName(name: Option<string>): (r: Option<Recipe>)
      reads this
      ensures !Present(name) ==> r == None
      ensures r.Some? ==> r.value in recipes && Matches(r.value, name.value)
      ensures (Present(name) && exists i :: 0 <= i < |recipes| && Matches(recipes[i], name.value)) ==> r.Some?
      ensures r == Lookup(recipes, name)
    {
      LookupFindsFirst(recipes, name);
      Lookup(recipes, name)
    }

    /** `filterRecipesByIngredient(ingredient)`. */
    function FilterRecipesByIngredient(ingredient: Option<string>): (r: seq<Recipe>)
      reads this
      ensures !Present(ingredient) ==> r == []
      ensures Present(ingredient) ==> forall x :: x in r <==> x in recipes && ingredient.value in x.ingredients
    {
      Filter(recipes, ingredient)
    }

    method DeleteRecipe(name: Option<string>) returns (deleted: bool)
      requires Valid()
      modifies this
      ensures Valid()
      ensures (recipes, deleted) == Deleted(old(recipes), name)
    {
      if !Present(name) {
        return false;
      }
      var toDelete := GetRecipeByName(name);
      if toDelete.Some? {
        RemoveFirstKeepsValid(recipes, toDelete.value);
        recipes := RemoveFirst(recipes, toDelete.value);
        return true;
      }
      return false;
    }

    method EditRecipe(name: Option<string>, newIngredients: Option<seq<string>>, newInstructions: Option<string>)
      returns (edited: bool)
      requires Valid()
      modifies this
      ensures Valid()
      ensures (recipes, edited) == Edited(old(recipes), name, newIngredients, newInstructions)
    {
      if !Present(name) {
        return false;
      }
      var oldRecipe := GetRecipeByName(name);
      if oldRecipe.None? {
        return false;
      }
      RemoveFirstKeepsValid(recipes, oldRecipe.value);
      recipes := RemoveFirst(recipes, oldRecipe.value);
      var updated := NewRecipe(name, newIngredients, newInstructions);
      if updated.Ok? {
        recipes := recipes + [updated.value];
        return true;
      }
      recipes := recipes + [oldRecipe.value];
      return false;
    }

    method ToJson() returns (j: Json)
      ensures j == RecipesJson(recipes)
    {
      var items: seq<Json> := [];
      for i := 0 to |recipes|
        invariant items == RecipeItemsJson(recipes)[..i]
      {
        var rj := recipes[i].ToJson();
        items := items + [rj];
      }
      j := JArray(items);
    }
  }
}
