/** Nutrition (src/frontend/src/pages/NutritionPage.tsx): a photo fills the
    seven form fields from the simulated estimate, and saving checks the
    form and sends the nutrition values as a 7-tuple. `parse` stands for
    `parseFloat`: `None` is NaN. */
module NutritionPage {
  import opened Backend
  import Text
  import NutritionEstimator
  import QueryCache

  /** The order `saveMeal` takes: calories, carbs, protein, fat, fiber,
      sugar, sodium. */
  type NutritionTuple = (real, real, real, real, real, real, real)

  /** The arguments of the save-meal mutation. */
  datatype MealRequest = MealRequest(id: string, photo: PhotoRef, nutrition: NutritionTuple)

  /** `parseFloat(x) || 0`: NaN becomes 0. */
  function OrZero(v: Option<real>): real
  {
    if v.Some? then v.value else 0.0
  }

  /** The calories check as written: `!calories || parseFloat(calories) <= 0`
      rejects; a NaN is not `<= 0`, so it passes. */
  predicate CaloriesAccepted(calories: string, parse: string -> Option<real>)
  {
    calories != "" && !(parse(calories).Some? && parse(calories).value <= 0.0)
  }

  /** The check rejects an empty field and any number that is not
      positive, and accepts every positive number. A non-empty field that
      does not parse is accepted too, and its calories are sent as 0. */
  lemma CaloriesCheck(calories: string, parse: string -> Option<real>)
    ensures calories == "" ==> !CaloriesAccepted(calories, parse)
    ensures parse(calories).Some? ==>
              (CaloriesAccepted(calories, parse) <==> calories != "" && parse(calories).value > 0.0)
    ensures calories != "" && parse(calories).None? ==>
              CaloriesAccepted(calories, parse) && OrZero(parse(calories)) == 0.0
  {
  }

  /** The tuple built from the seven fields, in the service's order. */
  function BuildTuple(calories: string, protein: string, carbs: string, fat: string, fiber: string,
                      sugar: string, sodium: string, parse: string -> Option<real>): NutritionTuple
  {
    (OrZero(parse(calories)), OrZero(parse(carbs)), OrZero(parse(protein)), OrZero(parse(fat)),
     OrZero(parse(fiber)), OrZero(parse(sugar)), OrZero(parse(sodium)))
  }

  /** `n.toString()` for an integer. */
  function Shown(n: int): string
  {
    if n >= 0 then Text.DecimalString(n) else "-" + Text.DecimalString(-n)
  }

  /** Every estimated value is shown as a plain decimal numeral that reads
      back as that value. */
  lemma EstimateShownReadsBack(fileName: string)
    ensures var e := NutritionEstimator.EstimateNutrition(fileName);
            && Text.AllDigits(Shown(e.calories)) && Text.DigitsValue(Shown(e.calories)) == e.calories
            && Text.AllDigits(Shown(e.protein)) && Text.DigitsValue(Shown(e.protein)) == e.protein
            && Text.AllDigits(Shown(e.carbs)) && Text.DigitsValue(Shown(e.carbs)) == e.carbs
            && Text.AllDigits(Shown(e.fat)) && Text.DigitsValue(Shown(e.fat)) == e.fat
            && Text.AllDigits(Shown(e.fiber)) && Text.DigitsValue(Shown(e.fiber)) == e.fiber
            && Text.AllDigits(Shown(e.sugar)) && Text.DigitsValue(Shown(e.sugar)) == e.sugar
            && Text.AllDigits(Shown(e.sodium)) && Text.DigitsValue(Shown(e.sodium)) == e.sodium
  {
    var e := NutritionEstimator.EstimateNutrition(fileName);
    NutritionEstimator.EstimateBounds(fileName);
    Text.DecimalRoundTrip(e.calories);
    Text.DecimalRoundTrip(e.protein);
    Text.DecimalRoundTrip(e.carbs);
    Text.DecimalRoundTrip(e.fat);
    Text.DecimalRoundTrip(e.fiber);
    Text.DecimalRoundTrip(e.sugar);
    Text.DecimalRoundTrip(e.sodium);
  }

  /** The meal form's state. `photo` is the chosen file, kept by name. */
  class MealForm {
    var photo: Option<PhotoRef>
    var calories: string
    var protein: string
    var carbs: string
    var fat: string
    var fiber: string
    var sugar: string
    var sodium: string
    var isEstimating: bool
    var dialogOpen: bool

    /** No photo and every field empty: the initial form and the one
        `resetForm` leaves. */
    predicate IsEmpty()
      reads this
    {
      photo == None && calories == "" && protein == "" && carbs == "" && fat == ""
      && fiber == "" && sugar == "" && sodium == ""
    }

    /** Every field holds the text of the matching estimated value. */
    predicate ShowsEstimate(e: NutritionEstimator.NutritionEstimate)
      reads this
    {
      calories == Shown(e.calories) && protein == Shown(e.protein) && carbs == Shown(e.carbs)
      && fat == Shown(e.fat) && fiber == Shown(e.fiber) && sugar == Shown(e.sugar)
      && sodium == Shown(e.sodium)
    }

    constructor ()
      ensures IsEmpty() && !isEstimating && !dialogOpen
    {
      photo := None;
      calories, protein, carbs, fat := "", "", "", "";
      fiber, sugar, sodium := "", "", "";
      isEstimating := false;
      dialogOpen := false;
    }

    /** `resetForm`. */
    method ResetForm()
      modifies this
      ensures IsEmpty()
      ensures isEstimating == old(isEstimating) && dialogOpen == old(dialogOpen)
    {
      photo := None;
      calories, protein, carbs, fat := "", "", "", "";
      fiber, sugar, sodium := "", "", "";
    }

    /** The seven setters after the estimate: each field shows the
        matching value; nothing else changes. */
    method ShowEstimate(e: NutritionEstimator.NutritionEstimate)
      modifies this
      ensures ShowsEstimate(e)
      ensures photo == old(photo) && isEstimating == old(isEstimating) && dialogOpen == old(dialogOpen)
    {
      calories, protein, carbs, fat := Shown(e.calories), Shown(e.protein), Shown(e.carbs), Shown(e.fat);
      fiber, sugar, sodium := Shown(e.fiber), Shown(e.sugar), Shown(e.sodium);
    }

    /** `handlePhotoChange`: without a file nothing happens; otherwise the
        file is kept and, once the estimate is ready, every field holds the
        decimal text of the matching estimated value. */
    method PhotoChange(file: Option<string>)
      modifies this
      ensures file.None? ==>
                photo == old(photo) && calories == old(calories) && protein == old(protein)
                && carbs == old(carbs) && fat == old(fat) && fiber == old(fiber)
                && sugar == old(sugar) && sodium == old(sodium) && isEstimating == old(isEstimating)
      ensures file.Some? ==>
                photo == Some(PhotoRef(file.value)) && !isEstimating
                && ShowsEstimate(NutritionEstimator.EstimateNutrition(file.value))
      ensures dialogOpen == old(dialogOpen)
    {
      if file.None? {
        return;
      }
      photo := Some(PhotoRef(file.value));
      isEstimating := true;
      var e := NutritionEstimator.EstimateNutrition(file.value);
      ShowEstimate(e);
      isEstimating := false;
    }

    /** `handleSaveMeal`: a photo is required, then the calories check;
        the id is the decimal clock value. Success closes the dialog and
        empties the form; failure leaves everything as entered. */
    method SaveMeal(client: QueryCache.QueryClient, nowMs: nat, parse: string -> Option<real>,
                    hasActor: bool, backendOk: bool)
      returns (outcome: QueryCache.SaveOutcome, sent: Option<MealRequest>)
      modifies this, client
      ensures outcome == QueryCache.Invalid <==>
                old(photo).None? || !CaloriesAccepted(old(calories), parse)
      ensures outcome != QueryCache.Threw
      ensures outcome.Settled? ==>
                && outcome.result == QueryCache.ResultOf(hasActor, backendOk)
                && sent == Some(MealRequest(Text.DecimalString(nowMs), old(photo).value,
                                            BuildTuple(old(calories), old(protein), old(carbs), old(fat),
                                                       old(fiber), old(sugar), old(sodium), parse)))
                && client.entries == QueryCache.AfterMutation(old(client.entries), QueryCache.SaveMeal, outcome.result)
      ensures !outcome.Settled? ==> sent == None && client.entries == old(client.entries)
      ensures outcome == QueryCache.Settled(QueryCache.Succeeded) ==> IsEmpty() && !dialogOpen
      ensures outcome != QueryCache.Settled(QueryCache.Succeeded) ==>
                photo == old(photo) && calories == old(calories) && protein == old(protein)
                && carbs == old(carbs) && fat == old(fat) && fiber == old(fiber)
                && sugar == old(sugar) && sodium == old(sodium) && dialogOpen == old(dialogOpen)
      ensures isEstimating == old(isEstimating)
    {
      if photo.None? {
        return QueryCache.Invalid, None;
      }
      if calories == "" || (parse(calories).Some? && parse(calories).value <= 0.0) {
        return QueryCache.Invalid, None;
      }
      var request := MealRequest(Text.DecimalString(nowMs), photo.value,
                                 BuildTuple(calories, protein, carbs, fat, fiber, sugar, sodium, parse));
      var result := client.Mutate(QueryCache.SaveMeal, hasActor, backendOk);
      if result == QueryCache.Succeeded {
        dialogOpen := false;
        ResetForm();
      }
      outcome, sent := QueryCache.Settled(result), Some(request);
    }
  }

  /** A `parseFloat` that reads a plain decimal numeral as its value. */
  ghost predicate ReadsDecimals(parse: string -> Option<real>)
  {
    forall n: nat :: parse(Text.DecimalString(n)) == Some(n as real)
  }

  /** Choosing a photo and saving the estimate unchanged sends the
      estimate in the service's order (calories, carbs, protein, fat,
      fiber, sugar, sodium); the calories always pass the check because
      every estimate has at least 200. */
  method SaveEstimateScenario(client: QueryCache.QueryClient, fileName: string, nowMs: nat,
                              parse: string -> Option<real>)
    returns (sent: Option<MealRequest>)
    requires ReadsDecimals(parse)
    modifies client
    ensures var e := NutritionEstimator.EstimateNutrition(fileName);
            sent == Some(MealRequest(Text.DecimalString(nowMs), PhotoRef(fileName),
                                     (e.calories as real, e.carbs as real, e.protein as real, e.fat as real,
                                      e.fiber as real, e.sugar as real, e.sodium as real)))
  {
    var form := new MealForm();
    form.PhotoChange(Some(fileName));
    var e := NutritionEstimator.EstimateNutrition(fileName);
    NutritionEstimator.EstimateBounds(fileName);
    EstimateShownReadsBack(fileName);
    assert parse(form.calories) == Some(e.calories as real);
    assert parse(form.protein) == Some(e.protein as real);
    assert parse(form.carbs) == Some(e.carbs as real);
    assert parse(form.fat) == Some(e.fat as real);
    assert parse(form.fiber) == Some(e.fiber as real);
    assert parse(form.sugar) == Some(e.sugar as real);
    assert parse(form.sodium) == Some(e.sodium as real);
    var outcome;
    outcome, sent := form.SaveMeal(client, nowMs, parse, true, true);
  }
}
