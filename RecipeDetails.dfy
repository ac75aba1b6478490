/** The ingredient list of the recipe page: for each index 1 to 20 it reads
    `strIngredient{n}` and `strMeasure{n}` of the meal record and lists the
    pair when the ingredient is a string that does not trim to "". */
module RecipeDetails {
  import opened JsValues

  const FieldCount := 20

  /** `strIngredient${n}` */
  function IngredientKey(n: nat): string {
    "strIngredient" + Decimal(n)
  }

  /** `strMeasure${n}` */
  function MeasureKey(n: nat): string {
    "strMeasure" + Decimal(n)
  }

  /** What `ing && ing.trim()` makes of one ingredient: nothing rendered,
      an ingredient rendered, or a truthy non-string whose missing `trim`
      throws a TypeError while rendering. */
  datatype Slot = Blank | Listed(ingredient: string) | NotAString

  function SlotOf(ing: Value): Slot {
    if !Truthy(ing) then Blank
    else match ing
      case Str(s) => if Trim(s) != "" then Listed(s) else Blank
      case _ => NotAString
  }

  /** What the callback reads for one index: the ingredient's slot and the
      measure as stored. */
  datatype Item = Item(slot: Slot, measure: Value)

  function ItemAt(meal: Value, n: nat): Item {
    Item(SlotOf(Prop(meal, IngredientKey(n))), Prop(meal, MeasureKey(n)))
  }

  /** `Array.from({length: 20}, (_, i) => i + 1)` read off the meal: the
      item at position `i` belongs to index `i + 1`. */
  function Items(meal: Value): (items: seq<Item>)
    ensures |items| == FieldCount
    ensures forall i :: 0 <= i < FieldCount ==> items[i] == ItemAt(meal, i + 1)
  {
    seq(FieldCount, i requires 0 <= i < FieldCount => ItemAt(meal, i + 1))
  }

  /** One rendered `<li>`: the index it came from, the ingredient as stored
      and the measure as stored, whatever it is. */
  datatype Line = Line(index: nat, ingredient: string, measure: Value)

  /** The rendered list, or the index whose ingredient made the `.map`
      callback throw. */
  datatype Rendered = Lines(lines: seq<Line>) | RenderError(index: nat)

  /** The `.map(...)` callback over positions `i` onwards: the non-null
      elements in order, or the first throw of the callback. */
  function RenderFrom(items: seq<Item>, i: nat): (r: Rendered)
    requires i <= |items|
    decreases |items| - i
    ensures r.Lines? ==> |r.lines| <= |items| - i
    ensures r.Lines? ==> forall k :: 0 <= k < |r.lines| ==> i < r.lines[k].index <= |items|
    ensures r.Lines? ==> forall k, l :: 0 <= k < l < |r.lines| ==> r.lines[k].index < r.lines[l].index
    ensures r.RenderError? ==> i < r.index <= |items|
  {
    if i == |items| then Lines([])
    else
      match items[i].slot
      case NotAString => RenderError(i + 1)
      case Blank => RenderFrom(items, i + 1)
      case Listed(s) =>
        match RenderFrom(items, i + 1)
        case RenderError(e) => RenderError(e)
        case Lines(rest) => Lines([Line(i + 1, s, items[i].measure)] + rest)
  }

  /** The callback throws from `i` on exactly when some later item is a
      non-string, and at the first one. */
  lemma {:induction false} RenderFromError(items: seq<Item>, i: nat)
    requires i <= |items|
    decreases |items| - i
    ensures RenderFrom(items, i).Lines? <==> forall j :: i <= j < |items| ==> !items[j].slot.NotAString?
    ensures var r := RenderFrom(items, i);
            r.RenderError? ==>
              items[r.index - 1].slot.NotAString? && forall j :: i <= j < r.index - 1 ==> !items[j].slot.NotAString?
  {
    if i < |items| {
      RenderFromError(items, i + 1);
    }
  }

  /** Every line is the listed ingredient and the measure of its own item. */
  lemma {:induction false} RenderFromContent(items: seq<Item>, i: nat)
    requires i <= |items|
    decreases |items| - i
    ensures var r := RenderFrom(items, i);
            r.Lines? ==> forall k :: 0 <= k < |r.lines| ==>
              && items[r.lines[k].index - 1].slot == Listed(r.lines[k].ingredient)
              && r.lines[k].measure == items[r.lines[k].index - 1].measure
  {
    if i < |items| {
      RenderFromContent(items, i + 1);
      var r := RenderFrom(items, i);
      if r.Lines? && items[i].slot.Listed? {
        var rest := RenderFrom(items, i + 1).lines;
        assert r.lines == [Line(i + 1, items[i].slot.ingredient, items[i].measure)] + rest;
        assert forall k :: 1 <= k < |r.lines| ==> r.lines[k] == rest[k - 1];
      }
    }
  }

  /** Every listed item from `i` on has a line. */
  lemma {:induction false} RenderFromComplete(items: seq<Item>, i: nat, j: nat)
    requires i <= j < |items|
    requires items[j].slot.Listed?
    requires RenderFrom(items, i).Lines?
    decreases j - i
    ensures exists k :: 0 <= k < |RenderFrom(items, i).lines| && RenderFrom(items, i).lines[k].index == j + 1
  {
    var r := RenderFrom(items, i);
    if j == i {
      assert r.lines[0].index == i + 1;
    } else {
      RenderFromComplete(items, i + 1, j);
      var rest := RenderFrom(items, i + 1).lines;
      var k :| 0 <= k < |rest| && rest[k].index == j + 1;
      if items[i].slot.Listed? {
        assert r.lines[k + 1] == rest[k];
      } else {
        assert r.lines == rest;
      }
    }
  }

  /** The ingredient list of a meal, as the page renders it. */
  function Ingredients(meal: Value): (r: Rendered)
    ensures r.Lines? ==> |r.lines| <= FieldCount
    ensures r.Lines? ==> forall k, l :: 0 <= k < l < |r.lines| ==> r.lines[k].index < r.lines[l].index
    ensures r.Lines? ==> forall k :: 0 <= k < |r.lines| ==> 1 <= r.lines[k].index <= FieldCount
    ensures r.RenderError? ==> 1 <= r.index <= FieldCount
  {
    RenderFrom(Items(meal), 0)
  }

  /** An ingredient is listed at index `n` when it is a string that does not
      trim to "". */
  predicate IsListed(meal: Value, n: nat) {
    Prop(meal, IngredientKey(n)).Str? && Trim(Prop(meal, IngredientKey(n)).s) != ""
  }

  /** A truthy ingredient that is not a string: its `trim` is missing. */
  predicate IsNotAString(meal: Value, n: nat) {
    Truthy(Prop(meal, IngredientKey(n))) && !Prop(meal, IngredientKey(n)).Str?
  }

  lemma SlotOfMeans(ing: Value)
    ensures SlotOf(ing).Listed? <==> ing.Str? && Trim(ing.s) != ""
    ensures SlotOf(ing).Listed? ==> ing == Str(SlotOf(ing).ingredient)
    ensures SlotOf(ing).NotAString? <==> Truthy(ing) && !ing.Str?
  {
    match ing
    case Str(s) =>
      if s == "" {
        assert Trim(s) == "";
      }
    case _ =>
  }

  /** The rendered list: index `n` has a line exactly when its ingredient
      is listed, that line holds the ingredient string unchanged and the
      measure as stored (missing or blank included), and the `.map` callback
      throws exactly when a truthy non-string ingredient exists, at the first
      one. */
  lemma IngredientsAreTheListedPairs(meal: Value)
    ensures var r := Ingredients(meal);
            r.Lines? ==> forall k :: 0 <= k < |r.lines| ==>
              && Prop(meal, IngredientKey(r.lines[k].index)) == Str(r.lines[k].ingredient)
              && Trim(r.lines[k].ingredient) != ""
              && r.lines[k].measure == Prop(meal, MeasureKey(r.lines[k].index))
    ensures var r := Ingredients(meal);
            r.Lines? ==> forall n :: 1 <= n <= FieldCount ==>
              ((exists k :: 0 <= k < |r.lines| && r.lines[k].index == n) <==> IsListed(meal, n))
    ensures Ingredients(meal).RenderError? <==> exists n :: 1 <= n <= FieldCount && IsNotAString(meal, n)
    ensures var r := Ingredients(meal);
            r.RenderError? ==>
              IsNotAString(meal, r.index) && forall n :: 1 <= n < r.index ==> !IsNotAString(meal, n)
  {
    var items := Items(meal);
    var r := Ingredients(meal);
    forall n | 1 <= n <= FieldCount
      ensures items[n - 1].slot.Listed? <==> IsListed(meal, n)
      ensures items[n - 1].slot.Listed? ==> Prop(meal, IngredientKey(n)) == Str(items[n - 1].slot.ingredient)
      ensures items[n - 1].slot.NotAString? <==> IsNotAString(meal, n)
      ensures items[n - 1].measure == Prop(meal, MeasureKey(n))
    {
      SlotOfMeans(Prop(meal, IngredientKey(n)));
    }
    RenderFromError(items, 0);
    if r.Lines? {
      RenderFromContent(items, 0);
      forall n | 1 <= n <= FieldCount && IsListed(meal, n)
        ensures exists k :: 0 <= k < |r.lines| && r.lines[k].index == n
      {
        RenderFromComplete(items, 0, n - 1);
      }
    } else {
      assert items[r.index - 1].slot.NotAString?;
    }
  }
}
