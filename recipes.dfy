/** The recipe entities of `backend/apps/recipes/models.py` and their display
    strings: the measurement abbreviation table, the renderings of an
    instruction, an ingredient and a tag, and a tag's default type. */
module Recipes {
  import opened Outcomes
  import opened Text

  type UserId = nat
  type RecipeId = nat
  type TagId = nat
  type InstructionId = nat
  type IngredientId = nat

  /** A stored recipe. `createdAt` is the creation timestamp the store fills
      in; the descriptive scalar fields play no part in any rule and are not
      carried. */
  datatype Recipe = Recipe(name: string, createdAt: int, author: UserId, tags: set<TagId>)

  /** One numbered step of a recipe. Nothing constrains the step numbers of a
      recipe to be distinct or contiguous. */
  datatype Instruction = Instruction(step: nat, description: string, recipe: RecipeId)

  /** One ingredient line of a recipe. `measurement` is free text: one of the
      measurement codes, a custom unit, or empty. The floating-point
      quantity is not carried: its formatted form is a parameter of
      `IngredientStr`. */
  datatype Ingredient = Ingredient(position: nat, name: string, measurement: string, recipe: RecipeId)

  /** A tag. Its type is the stored text of a choices field; the choices are
      checked by form validation only, so any text can be stored. */
  datatype Tag = Tag(name: string, tagType: string)

  /** The measurement choices, each with its stored code and its label. */
  datatype MeasurementOption =
    | Pinch | Teaspoon | Tablespoon | Ounce | FluidOunce | Cup
    | Pint | Quart | Gallon | Pound | Gram | Milliliter

  function MeasurementCode(o: MeasurementOption): string {
    match o
    case Pinch => "PINCH"
    case Teaspoon => "TEASPOON"
    case Tablespoon => "TABLESPOON"
    case Ounce => "OUNCE"
    case FluidOunce => "FLUID_OUNCE"
    case Cup => "CUP"
    case Pint => "PINT"
    case Quart => "QUART"
    case Gallon => "GALLON"
    case Pound => "POUND"
    case Gram => "GRAM"
    case Milliliter => "MILILITER"
  }

  function MeasurementLabel(o: MeasurementOption): string {
    match o
    case Pinch => "pinch"
    case Teaspoon => "tsp"
    case Tablespoon => "tbsp"
    case Ounce => "oz"
    case FluidOunce => "fl. oz"
    case Cup => "cup"
    case Pint => "pt"
    case Quart => "qt"
    case Gallon => "gal"
    case Pound => "lb"
    case Gram => "g"
    case Milliliter => "mL"
  }

  /** The lookup table of `f_measurement`: code to label. */
  const MeasurementLabels: map<string, string> := map[
    "PINCH" := MeasurementLabel(Pinch),
    "TEASPOON" := MeasurementLabel(Teaspoon),
    "TABLESPOON" := MeasurementLabel(Tablespoon),
    "OUNCE" := MeasurementLabel(Ounce),
    "FLUID_OUNCE" := MeasurementLabel(FluidOunce),
    "CUP" := MeasurementLabel(Cup),
    "PINT" := MeasurementLabel(Pint),
    "QUART" := MeasurementLabel(Quart),
    "GALLON" := MeasurementLabel(Gallon),
    "POUND" := MeasurementLabel(Pound),
    "GRAM" := MeasurementLabel(Gram),
    "MILILITER" := MeasurementLabel(Milliliter)
  ]

  predicate IsMeasurementCode(m: string) {
    exists o: MeasurementOption :: MeasurementCode(o) == m
  }

  /** `Ingredient.f_measurement`: the label of a known code, otherwise the
      stored text unchanged. */
  function FMeasurement(measurement: string): (r: string)
    ensures forall o :: measurement == MeasurementCode(o) ==> r == MeasurementLabel(o)
    ensures !IsMeasurementCode(measurement) ==> r == measurement
  {
    if measurement in MeasurementLabels then
      TableKeysAreCodes(measurement);
      MeasurementLabels[measurement]
    else
      measurement
  }

  /** Every key of the table is the code of some measurement choice. */
  lemma TableKeysAreCodes(m: string)
    requires m in MeasurementLabels
    ensures IsMeasurementCode(m)
  {
    var o :=
      if m == "PINCH" then Pinch
      else if m == "TEASPOON" then Teaspoon
      else if m == "TABLESPOON" then Tablespoon
      else if m == "OUNCE" then Ounce
      else if m == "FLUID_OUNCE" then FluidOunce
      else if m == "CUP" then Cup
      else if m == "PINT" then Pint
      else if m == "QUART" then Quart
      else if m == "GALLON" then Gallon
      else if m == "POUND" then Pound
      else if m == "GRAM" then Gram
      else Milliliter;
    assert MeasurementCode(o) == m;
  }

  /** The 12 labels are pairwise distinct, so `FMeasurement` is injective on
      the known codes. */
  lemma MeasurementLabelsDistinct(o1: MeasurementOption, o2: MeasurementOption)
    requires FMeasurement(MeasurementCode(o1)) == FMeasurement(MeasurementCode(o2))
    ensures o1 == o2
  {
  }

  /** Outside the known codes the identity fallback can collide with a label:
      the code for teaspoons and the custom unit "tsp" display alike. */
  lemma MeasurementFallbackCollides()
    ensures FMeasurement("TEASPOON") == FMeasurement("tsp")
    ensures "TEASPOON" != "tsp"
  {
  }

  /** `Instruction.__str__`: the step in parentheses, a space, the description. */
  function InstructionStr(i: Instruction): (r: string)
    ensures |r| > |i.description| + 2
    ensures r[0] == '(' && r[|r| - |i.description| - 2..] == ") " + i.description
  {
    "(" + DecimalString(i.step) + ") " + i.description
  }

  /** An instruction's rendering determines its step and its description, so
      distinct lines of one recipe never display alike. */
  lemma InstructionStrInjective(i1: Instruction, i2: Instruction)
    requires InstructionStr(i1) == InstructionStr(i2)
    ensures i1.step == i2.step && i1.description == i2.description
  {
    var d1, d2 := DecimalString(i1.step), DecimalString(i2.step);
    InstructionStrSplits(i1);
    InstructionStrSplits(i2);
    SplitAtSeparator("(" + d1, " " + i1.description, "(" + d2, " " + i2.description, ')');
    CancelPrefix("(", d1, d2);
    DecimalStringInjective(i1.step, i2.step);
    CancelPrefix(" ", i1.description, i2.description);
  }

  /** The rendering around its first `)`, which closes the digits. */
  lemma InstructionStrSplits(i: Instruction)
    ensures InstructionStr(i) == ("(" + DecimalString(i.step)) + [')'] + (" " + i.description)
    ensures ')' !in "(" + DecimalString(i.step)
  {
    var d := DecimalString(i.step);
    assert forall k :: 0 <= k < |d| ==> IsDigit(d[k]);
    assert forall k :: 0 <= k < |"(" + d| ==> ("(" + d)[k] != ')';
  }

  /** `Ingredient.__str__` given the formatted quantity `fQuantity`: quantity,
      measurement and name separated by single spaces. */
  function IngredientStr(fQuantity: string, i: Ingredient): (r: string)
    ensures |r| == |fQuantity| + |FMeasurement(i.measurement)| + |i.name| + 2
    ensures r[..|fQuantity| + 1] == fQuantity + " "
    ensures r[|r| - |i.name| - 1..] == " " + i.name
  {
    fQuantity + " " + FMeasurement(i.measurement) + " " + i.name
  }

  /** A known code displays as its label between quantity and name. */
  lemma IngredientStrKnownCode(fQuantity: string, i: Ingredient, o: MeasurementOption)
    requires i.measurement == MeasurementCode(o)
    ensures IngredientStr(fQuantity, i) == fQuantity + " " + MeasurementLabel(o) + " " + i.name
  {
  }

  /** A blank measurement, which the field allows, leaves two spaces between
      quantity and name. */
  lemma IngredientStrBlankMeasurement(fQuantity: string, i: Ingredient)
    requires i.measurement == ""
    ensures IngredientStr(fQuantity, i) == fQuantity + "  " + i.name
  {
  }

  /** The codes of the four tag types. */
  datatype TagType = DietaryPreference | Course | Difficulty | Custom

  function TagTypeCode(t: TagType): string {
    match t
    case DietaryPreference => "DIETARY_PREFERENCE"
    case Course => "COURSE"
    case Difficulty => "DIFFICULTY"
    case Custom => "CUSTOM"
  }

  lemma TagTypeCodesDistinct(t1: TagType, t2: TagType)
    requires TagTypeCode(t1) == TagTypeCode(t2)
    ensures t1 == t2
  {
  }

  /** A tag as created with a name and, optionally, a type; without a type it
      gets the field default, the custom type. */
  function NewTag(name: string, tagType: Option<string>): (t: Tag)
    ensures t.name == name
    ensures tagType.None? ==> t.tagType == TagTypeCode(Custom)
    ensures tagType.Some? ==> t.tagType == tagType.value
  {
    Tag(name, match tagType case None => TagTypeCode(Custom) case Some(s) => s)
  }

  /** `Tag.__str__`: the name in lower case. */
  function TagStr(t: Tag): (r: string)
    ensures |r| == |t.name|
    ensures forall k :: 0 <= k < |r| ==> !IsUpper(r[k])
  {
    Lower(t.name)
  }

  /** A tag whose name is already the lower-cased display displays the same. */
  lemma TagStrStable(t: Tag)
    ensures TagStr(Tag(TagStr(t), t.tagType)) == TagStr(t)
  {
    LowerIdempotent(t.name);
  }

  /** Tags whose names differ only in ASCII case display alike. */
  lemma TagStrIgnoresCase()
    ensures TagStr(Tag("Vegan", "CUSTOM")) == TagStr(Tag("vEGAN", "CUSTOM")) == "vegan"
  {
  }
}
