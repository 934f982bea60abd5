/** The health store (src/stores/health.ts): meals, water records, workouts and
    weight history, the nutrition targets, a selected-date cursor, the
    date-scoped totals, and the actions that fetch and append records. */
module Health {
  import opened Common
  import opened Seqs

  datatype MealType = Breakfast | Lunch | Dinner | Snack

  datatype FoodItem = FoodItem(
    id: string, name: string, amount: int, unit: string,
    calories: int, protein: int, carbs: int, fat: int)

  /** A meal record; dates are opaque strings compared for equality. */
  datatype Meal = Meal(
    id: string,
    date: string,
    mealType: MealType,
    time: string,
    foods: seq<FoodItem>,
    calories: int,
    protein: int,
    carbs: int,
    fat: int,
    notes: Option<string>,
    createdAt: string,
    updatedAt: string)

  /** A water record; `amount` is in millilitres. */
  datatype WaterRecord = WaterRecord(id: string, date: string, time: string, amount: int, createdAt: string)

  /** The body of the create-water request: a record without its server-assigned fields. */
  datatype WaterDraft = WaterDraft(date: string, time: string, amount: int)

  datatype WorkoutType = BackShoulder | ChestShoulder | LegsCore | Cardio | Rest

  datatype ExerciseSet = ExerciseSet(reps: int, weight: Option<int>, duration: Option<int>)

  datatype Exercise = Exercise(id: string, name: string, sets: seq<ExerciseSet>)

  datatype Workout = Workout(
    id: string,
    date: string,
    kind: WorkoutType,
    duration: int,
    exercises: seq<Exercise>,
    caloriesBurned: int,
    notes: Option<string>,
    completed: bool,
    createdAt: string,
    updatedAt: string)

  datatype WeightRecord = WeightRecord(id: string, date: string, weight: real, bodyFat: Option<real>, createdAt: string)

  datatype NutritionTarget = NutritionTarget(calories: int, protein: int, carbs: int, fat: int, water: int)

  /** The targets the store shows until `fetchTargets` first succeeds. */
  const DefaultTargets := NutritionTarget(2000, 150, 200, 60, 2500)

  /** Days of weight history `fetchWeightHistory` asks for when not told otherwise. */
  const DefaultWeightDays := 30

  /** One entry of `nutritionProgress`: the current total against its target. */
  datatype Gauge = Gauge(current: int, target: int)

  datatype NutritionProgress = NutritionProgress(
    calories: Gauge, protein: Gauge, carbs: Gauge, fat: Gauge, water: Gauge)

  function MealOn(d: string): Meal -> bool
  {
    (m: Meal) => m.date == d
  }

  function WaterOn(d: string): WaterRecord -> bool
  {
    (w: WaterRecord) => w.date == d
  }

  function WorkoutOn(d: string): Workout -> bool
  {
    (w: Workout) => w.date == d
  }

  function Calories(m: Meal): int { m.calories }
  function Protein(m: Meal): int { m.protein }
  function Carbs(m: Meal): int { m.carbs }
  function Fat(m: Meal): int { m.fat }
  function Amount(w: WaterRecord): int { w.amount }

  /** Getter `todayMeals`: the meals dated `d`, in list order. */
  function TodayMeals(meals: seq<Meal>, d: string): (r: seq<Meal>)
    ensures forall i :: 0 <= i < |r| ==> r[i] in meals && r[i].date == d
    ensures forall i :: 0 <= i < |meals| && meals[i].date == d ==> meals[i] in r
  {
    FilterMembers(meals, MealOn(d));
    Filter(meals, MealOn(d))
  }

  /** The sum of one macro field over the meals dated `d`; 0 when there are none. */
  function MacroTotal(meals: seq<Meal>, d: string, field: Meal -> int): (r: int)
    ensures (forall i :: 0 <= i < |meals| ==> meals[i].date != d) ==> r == 0
    ensures (forall i :: 0 <= i < |meals| ==> field(meals[i]) >= 0) ==> r >= 0
  {
    var today := TodayMeals(meals, d);
    assert (forall i :: 0 <= i < |meals| ==> field(meals[i]) >= 0) ==>
             forall i :: 0 <= i < |today| ==> field(today[i]) >= 0;
    assert (forall i :: 0 <= i < |meals| ==> meals[i].date != d) ==> today == [] by {
      if today != [] {
        assert today[0] in meals;
      }
    }
    SumOf(today, field)
  }

  /** Getters `todayCalories`, `todayProtein`, `todayCarbs`, `todayFat`. */
  function TodayCalories(meals: seq<Meal>, d: string): (r: int)
    ensures (forall i :: 0 <= i < |meals| ==> meals[i].date != d) ==> r == 0
    ensures (forall i :: 0 <= i < |meals| ==> meals[i].calories >= 0) ==> r >= 0
  {
    MacroTotal(meals, d, Calories)
  }

  function TodayProtein(meals: seq<Meal>, d: string): (r: int)
    ensures (forall i :: 0 <= i < |meals| ==> meals[i].date != d) ==> r == 0
    ensures (forall i :: 0 <= i < |meals| ==> meals[i].protein >= 0) ==> r >= 0
  {
    MacroTotal(meals, d, Protein)
  }

  function TodayCarbs(meals: seq<Meal>, d: string): (r: int)
    ensures (forall i :: 0 <= i < |meals| ==> meals[i].date != d) ==> r == 0
    ensures (forall i :: 0 <= i < |meals| ==> meals[i].carbs >= 0) ==> r >= 0
  {
    MacroTotal(meals, d, Carbs)
  }

  function TodayFat(meals: seq<Meal>, d: string): (r: int)
    ensures (forall i :: 0 <= i < |meals| ==> meals[i].date != d) ==> r == 0
    ensures (forall i :: 0 <= i < |meals| ==> meals[i].fat >= 0) ==> r >= 0
  {
    MacroTotal(meals, d, Fat)
  }

  /** Appending a meal adds its field to the day's total when it is dated `d`, and
      leaves the total alone otherwise. */
  lemma MacroTotalAppend(meals: seq<Meal>, m: Meal, d: string, field: Meal -> int)
    ensures MacroTotal(meals + [m], d, field) ==
      MacroTotal(meals, d, field) + (if m.date == d then field(m) else 0)
  {
    FilterConcat(meals, [m], MealOn(d));
    FilterSingleton(m, MealOn(d));
    SumOfConcat(Filter(meals, MealOn(d)), Filter([m], MealOn(d)), field);
    assert SumOf([m], field) == field(m) + SumOf([], field);
  }

  /** Getter `todayWaterIntake`: millilitres over the water records dated `d`. */
  function TodayWaterIntake(water: seq<WaterRecord>, d: string): (r: int)
    ensures (forall i :: 0 <= i < |water| ==> water[i].date != d) ==> r == 0
  {
    var today := Filter(water, WaterOn(d));
    FilterMembers(water, WaterOn(d));
    assert (forall i :: 0 <= i < |water| ==> water[i].date != d) ==> today == [] by {
      if today != [] {
        assert today[0] in water;
      }
    }
    SumOf(today, Amount)
  }

  lemma WaterIntakeAppend(water: seq<WaterRecord>, w: WaterRecord, d: string)
    ensures TodayWaterIntake(water + [w], d) ==
      TodayWaterIntake(water, d) + (if w.date == d then w.amount else 0)
  {
    FilterConcat(water, [w], WaterOn(d));
    FilterSingleton(w, WaterOn(d));
    SumOfConcat(Filter(water, WaterOn(d)), Filter([w], WaterOn(d)), Amount);
    assert SumOf([w], Amount) == w.amount + SumOf([], Amount);
  }

  /** Getter `todayWorkout`: the first workout dated `d`, absent when there is none. */
  function TodayWorkout(workouts: seq<Workout>, d: string): (r: Option<Workout>)
    ensures r.None? <==> forall j :: 0 <= j < |workouts| ==> workouts[j].date != d
    ensures r.Some? ==> exists i :: 0 <= i < |workouts| && workouts[i] == r.value && r.value.date == d &&
                                    forall j :: 0 <= j < i ==> workouts[j].date != d
  {
    FindFirst(workouts, WorkoutOn(d))
  }

  /** Getter `nutritionProgress`: each of the five totals beside its target. */
  function Progress(meals: seq<Meal>, water: seq<WaterRecord>, targets: NutritionTarget, d: string): (r: NutritionProgress)
    ensures r.calories.target == targets.calories && r.protein.target == targets.protein
    ensures r.carbs.target == targets.carbs && r.fat.target == targets.fat && r.water.target == targets.water
    ensures (forall i :: 0 <= i < |meals| ==> meals[i].date != d) ==>
      r.calories.current == 0 && r.protein.current == 0 && r.carbs.current == 0 && r.fat.current == 0
    ensures (forall i :: 0 <= i < |water| ==> water[i].date != d) ==> r.water.current == 0
  {
    NutritionProgress(
      Gauge(TodayCalories(meals, d), targets.calories),
      Gauge(TodayProtein(meals, d), targets.protein),
      Gauge(TodayCarbs(meals, d), targets.carbs),
      Gauge(TodayFat(meals, d), targets.fat),
      Gauge(TodayWaterIntake(water, d), targets.water))
  }

  /** Adding a meal dated `d` moves every macro gauge by the meal's amount and no
      target; the water gauge does not move. */
  lemma ProgressAfterMeal(meals: seq<Meal>, water: seq<WaterRecord>, targets: NutritionTarget, m: Meal)
    ensures var before, after := Progress(meals, water, targets, m.date), Progress(meals + [m], water, targets, m.date);
      && after.calories == Gauge(before.calories.current + m.calories, targets.calories)
      && after.protein == Gauge(before.protein.current + m.protein, targets.protein)
      && after.carbs == Gauge(before.carbs.current + m.carbs, targets.carbs)
      && after.fat == Gauge(before.fat.current + m.fat, targets.fat)
      && after.water == before.water
  {
    MacroTotalAppend(meals, m, m.date, Calories);
    MacroTotalAppend(meals, m, m.date, Protein);
    MacroTotalAppend(meals, m, m.date, Carbs);
    MacroTotalAppend(meals, m, m.date, Fat);
  }

  /** The health store's state. */
  class HealthStore {
    var meals: seq<Meal>
    var waterRecords: seq<WaterRecord>
    var workouts: seq<Workout>
    var weightHistory: seq<WeightRecord>
    var targets: NutritionTarget
    var loading: bool
    var selectedDate: string

    /** A fresh store: empty collections, default targets, the cursor on `today`. */
    constructor (today: string)
      ensures meals == [] && waterRecords == [] && workouts == [] && weightHistory == []
      ensures targets == DefaultTargets && !loading && selectedDate == today
    {
      meals, waterRecords, workouts, weightHistory := [], [], [], [];
      targets := DefaultTargets;
      loading := false;
      selectedDate := today;
    }

    /** `fetchTodayData`: the three fetches all ask for the date selected when the
        action starts; the three collections are replaced only if every fetch
        succeeds, and none of them changes otherwise. */
    method FetchTodayData(
      getMeals: string -> Remote<seq<Meal>>,
      getWater: string -> Remote<seq<WaterRecord>>,
      getWorkouts: string -> Remote<seq<Workout>>)
      modifies this
      ensures var d := old(selectedDate);
        getMeals(d).Ok? && getWater(d).Ok? && getWorkouts(d).Ok? ==>
          meals == getMeals(d).value && waterRecords == getWater(d).value && workouts == getWorkouts(d).value
      ensures var d := old(selectedDate);
        !(getMeals(d).Ok? && getWater(d).Ok? && getWorkouts(d).Ok?) ==>
          meals == old(meals) && waterRecords == old(waterRecords) && workouts == old(workouts)
      ensures !loading
      ensures selectedDate == old(selectedDate) && targets == old(targets) && weightHistory == old(weightHistory)
    {
      loading := true;
      var date := selectedDate;
      var mealsData, waterData, workoutsData := getMeals(date), getWater(date), getWorkouts(date);
      if mealsData.Ok? && waterData.Ok? && workoutsData.Ok? {
        meals := mealsData.value;
        waterRecords := waterData.value;
        workouts := workoutsData.value;
      }
      loading := false;
    }

    /** `fetchWeightHistory(days = 30)`: replace the history, or keep it on failure. */
    method FetchWeightHistory(getWeights: int -> Remote<seq<WeightRecord>>, days: int := DefaultWeightDays)
      modifies this`weightHistory
      ensures weightHistory == if getWeights(days).Ok? then getWeights(days).value else old(weightHistory)
    {
      var fetched := getWeights(days);
      if fetched.Ok? {
        weightHistory := fetched.value;
      }
    }

    /** `fetchTargets`: replace the targets, or keep them on failure. */
    method FetchTargets(fetched: Remote<NutritionTarget>)
      modifies this`targets
      ensures targets == if fetched.Ok? then fetched.value else old(targets)
    {
      if fetched.Ok? {
        targets := fetched.value;
      }
    }

    /** `addMeal`: append the created meal and return it; the day's calories grow by
        exactly its calories when it is dated on the selected day. */
    method AddMeal(created: Remote<Meal>) returns (c: Completion<Meal>)
      modifies this`meals
      ensures created.Ok? ==> meals == old(meals) + [created.value] && c == Returned(created.value)
      ensures created.Ok? ==>
        TodayCalories(meals, selectedDate) ==
        TodayCalories(old(meals), selectedDate) + (if created.value.date == selectedDate then created.value.calories else 0)
      ensures created.Fail? ==> meals == old(meals) && c == Threw(created.message)
    {
      if created.Fail? {
        return Threw(created.message);
      }
      MacroTotalAppend(meals, created.value, selectedDate, Calories);
      meals := meals + [created.value];
      c := Returned(created.value);
    }

    /** `addWater(amount)`: send a record dated on the selected day with that
        amount and the current time `now`; append and return what the server made. */
    method AddWater(amount: int, now: string, addWaterRecord: WaterDraft -> Remote<WaterRecord>)
      returns (c: Completion<WaterRecord>)
      modifies this`waterRecords
      ensures var sent := addWaterRecord(WaterDraft(selectedDate, now, amount));
        sent.Ok? ==> waterRecords == old(waterRecords) + [sent.value] && c == Returned(sent.value)
      ensures var sent := addWaterRecord(WaterDraft(selectedDate, now, amount));
        sent.Ok? ==>
          TodayWaterIntake(waterRecords, selectedDate) ==
          TodayWaterIntake(old(waterRecords), selectedDate) + (if sent.value.date == selectedDate then sent.value.amount else 0)
      ensures var sent := addWaterRecord(WaterDraft(selectedDate, now, amount));
        sent.Fail? ==> waterRecords == old(waterRecords) && c == Threw(sent.message)
    {
      var record := addWaterRecord(WaterDraft(selectedDate, now, amount));
      if record.Fail? {
        return Threw(record.message);
      }
      WaterIntakeAppend(waterRecords, record.value, selectedDate);
      waterRecords := waterRecords + [record.value];
      c := Returned(record.value);
    }

    /** `setSelectedDate`: move the cursor, then run `fetchTodayData` for the new date. */
    method SetSelectedDate(
      date: string,
      getMeals: string -> Remote<seq<Meal>>,
      getWater: string -> Remote<seq<WaterRecord>>,
      getWorkouts: string -> Remote<seq<Workout>>)
      modifies this
      ensures selectedDate == date && !loading
      ensures getMeals(date).Ok? && getWater(date).Ok? && getWorkouts(date).Ok? ==>
        meals == getMeals(date).value && waterRecords == getWater(date).value && workouts == getWorkouts(date).value
      ensures !(getMeals(date).Ok? && getWater(date).Ok? && getWorkouts(date).Ok?) ==>
        meals == old(meals) && waterRecords == old(waterRecords) && workouts == old(workouts)
      ensures targets == old(targets) && weightHistory == old(weightHistory)
    {
      selectedDate := date;
      FetchTodayData(getMeals, getWater, getWorkouts);
    }
  }

  /** Two water additions on an empty day: 500 ml, then 300 ml more, make 800 ml. */
  method TwoGlassesOfWater(store: HealthStore, now: string, addWaterRecord: WaterDraft -> Remote<WaterRecord>)
    requires store.waterRecords == []
    requires forall draft: WaterDraft :: addWaterRecord(draft) == Ok(WaterRecord("w", draft.date, draft.time, draft.amount, now))
    modifies store
    ensures TodayWaterIntake(store.waterRecords, store.selectedDate) == 800
  {
    var first := store.AddWater(500, now, addWaterRecord);
    assert TodayWaterIntake(store.waterRecords, store.selectedDate) == 500;
    var second := store.AddWater(300, now, addWaterRecord);
    assert TodayWaterIntake(store.waterRecords, store.selectedDate) == 800;
  }
}
