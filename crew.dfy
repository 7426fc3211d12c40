/** `crew.py`: the six Pydantic output schemas, the Gmail tool's result
    mapping, the configuration checks that run while tasks are built, and the
    fixed order of agents and tasks in the crew. Environment variables are
    `Option<string>` inputs; the task configuration is the dictionary loaded
    from `config/tasks.yaml`. */
module GymCrew {
  import opened Wrappers
  import opened Text
  import Calendar

  // ---------------------------------------------------------------------
  // Output schemas (the `BaseModel` classes).

  datatype DateTime = DateTime(date: Calendar.Date, hour: int, minute: int, second: int, microsecond: int)

  datatype Summary = Summary(
    date: DateTime, wentToGym: bool, muscleTrained: string, summary: string,
    painExperienced: bool, painDetails: string)

  datatype ReviewPain = ReviewPain(
    date: DateTime, muscleTrained: string, painDetails: string,
    treatmentRecommendations: string, youtubeLinks: seq<string>)

  datatype TomorrowWorkoutPlan = TomorrowWorkoutPlan(
    date: DateTime, commentsOnProgress: string, muscleToTrain: string,
    workoutPlan: string, youtubeLinksForProperForm: seq<string>)

  datatype Nutrition = Nutrition(date: DateTime, dietaryRestrictions: string, nutritionPlan: string)

  datatype MealPlan = MealPlan(
    date: DateTime, dietaryRestrictions: string, mealPlan: string,
    youtubeLinksForRecipes: seq<string>)

  datatype GymKnowledge = GymKnowledge(userGoals: string, weeklyTimetable: seq<seq<string>>)

  /** The six model classes, by name. */
  datatype Schema =
    | SummarySchema | ReviewPainSchema | TomorrowWorkoutPlanSchema
    | NutritionSchema | MealPlanSchema | GymKnowledgeSchema

  /** The annotation types the models use. */
  datatype FieldType = DateTimeType | BoolType | StrType | StrListType | StrListListType

  /** One field value of a dumped model. */
  datatype FieldValue =
    | DateTimeValue(dt: DateTime)
    | BoolValue(b: bool)
    | StrValue(str: string)
    | StrListValue(strs: seq<string>)
    | StrListListValue(table: seq<seq<string>>)

  /** A validated instance of one of the six models. */
  datatype Output =
    | SummaryOutput(summary: Summary)
    | ReviewPainOutput(reviewPain: ReviewPain)
    | WorkoutPlanOutput(workoutPlan: TomorrowWorkoutPlan)
    | NutritionOutput(nutrition: Nutrition)
    | MealPlanOutput(mealPlan: MealPlan)
    | GymKnowledgeOutput(gymKnowledge: GymKnowledge)

  type Record = seq<(string, FieldValue)>

  function TypeOf(v: FieldValue): FieldType {
    match v
    case DateTimeValue(_) => DateTimeType
    case BoolValue(_) => BoolType
    case StrValue(_) => StrType
    case StrListValue(_) => StrListType
    case StrListListValue(_) => StrListListType
  }

  /** The declared fields of each model, in declaration order. */
  function Fields(s: Schema): seq<(string, FieldType)> {
    match s
    case SummarySchema =>
      [("date", DateTimeType), ("went_to_gym", BoolType), ("muscle_trained", StrType),
       ("summary", StrType), ("pain_experienced", BoolType), ("pain_details", StrType)]
    case ReviewPainSchema =>
      [("date", DateTimeType), ("muscle_trained", StrType), ("pain_details", StrType),
       ("treatment_recommendations", StrType), ("youtube_links", StrListType)]
    case TomorrowWorkoutPlanSchema =>
      [("date", DateTimeType), ("comments_on_progress", StrType), ("muscle_to_train", StrType),
       ("workout_plan", StrType), ("youtube_links_for_proper_form", StrListType)]
    case NutritionSchema =>
      [("date", DateTimeType), ("dietary_restrictions", StrType), ("nutrition_plan", StrType)]
    case MealPlanSchema =>
      [("date", DateTimeType), ("dietary_restrictions", StrType), ("meal_plan", StrType),
       ("youtube_links_for_recipes", StrListType)]
    case GymKnowledgeSchema =>
      [("user_goals", StrType), ("weekly_timetable", StrListListType)]
  }

  function SchemaOf(o: Output): Schema {
    match o
    case SummaryOutput(_) => SummarySchema
    case ReviewPainOutput(_) => ReviewPainSchema
    case WorkoutPlanOutput(_) => TomorrowWorkoutPlanSchema
    case NutritionOutput(_) => NutritionSchema
    case MealPlanOutput(_) => MealPlanSchema
    case GymKnowledgeOutput(_) => GymKnowledgeSchema
  }

  /** `model.model_dump()`: field names and values in declaration order. */
  function Dump(o: Output): Record {
    match o
    case SummaryOutput(m) =>
      [("date", DateTimeValue(m.date)), ("went_to_gym", BoolValue(m.wentToGym)),
       ("muscle_trained", StrValue(m.muscleTrained)), ("summary", StrValue(m.summary)),
       ("pain_experienced", BoolValue(m.painExperienced)), ("pain_details", StrValue(m.painDetails))]
    case ReviewPainOutput(m) =>
      [("date", DateTimeValue(m.date)), ("muscle_trained", StrValue(m.muscleTrained)),
       ("pain_details", StrValue(m.painDetails)),
       ("treatment_recommendations", StrValue(m.treatmentRecommendations)),
       ("youtube_links", StrListValue(m.youtubeLinks))]
    case WorkoutPlanOutput(m) =>
      [("date", DateTimeValue(m.date)), ("comments_on_progress", StrValue(m.commentsOnProgress)),
       ("muscle_to_train", StrValue(m.muscleToTrain)), ("workout_plan", StrValue(m.workoutPlan)),
       ("youtube_links_for_proper_form", StrListValue(m.youtubeLinksForProperForm))]
    case NutritionOutput(m) =>
      [("date", DateTimeValue(m.date)), ("dietary_restrictions", StrValue(m.dietaryRestrictions)),
       ("nutrition_plan", StrValue(m.nutritionPlan))]
    case MealPlanOutput(m) =>
      [("date", DateTimeValue(m.date)), ("dietary_restrictions", StrValue(m.dietaryRestrictions)),
       ("meal_plan", StrValue(m.mealPlan)),
       ("youtube_links_for_recipes", StrListValue(m.youtubeLinksForRecipes))]
    case GymKnowledgeOutput(m) =>
      [("user_goals", StrValue(m.userGoals)), ("weekly_timetable", StrListListValue(m.weeklyTimetable))]
  }

  /** A record has exactly the declared fields, in order, each of its declared type. */
  predicate Conforms(rec: Record, fields: seq<(string, FieldType)>) {
    |rec| == |fields| && forall i :: 0 <= i < |rec| ==> rec[i].0 == fields[i].0 && TypeOf(rec[i].1) == fields[i].1
  }

  /** Build the model instance from a conforming record. */
  function Build(s: Schema, rec: Record): Output
    requires Conforms(rec, Fields(s))
  {
    match s
    case SummarySchema =>
      SummaryOutput(Summary(rec[0].1.dt, rec[1].1.b, rec[2].1.str, rec[3].1.str, rec[4].1.b, rec[5].1.str))
    case ReviewPainSchema =>
      ReviewPainOutput(ReviewPain(rec[0].1.dt, rec[1].1.str, rec[2].1.str, rec[3].1.str, rec[4].1.strs))
    case TomorrowWorkoutPlanSchema =>
      WorkoutPlanOutput(TomorrowWorkoutPlan(rec[0].1.dt, rec[1].1.str, rec[2].1.str, rec[3].1.str, rec[4].1.strs))
    case NutritionSchema =>
      NutritionOutput(Nutrition(rec[0].1.dt, rec[1].1.str, rec[2].1.str))
    case MealPlanSchema =>
      MealPlanOutput(MealPlan(rec[0].1.dt, rec[1].1.str, rec[2].1.str, rec[3].1.strs))
    case GymKnowledgeSchema =>
      GymKnowledgeOutput(GymKnowledge(rec[0].1.str, rec[1].1.table))
  }

  /** Strict validation of a record against a model: accepted exactly when it
      has the declared fields with the declared types. */
  function Validate(s: Schema, rec: Record): Option<Output> {
    if Conforms(rec, Fields(s)) then Some(Build(s, rec)) else None
  }

  /** Every instance of every model dumps to a record of exactly its declared
      fields and types. */
  lemma DumpConforms(o: Output)
    ensures Conforms(Dump(o), Fields(SchemaOf(o)))
  {
  }

  /** Validating a dump gives back the instance. */
  lemma ValidateDump(o: Output)
    ensures Validate(SchemaOf(o), Dump(o)) == Some(o)
  {
    DumpConforms(o);
  }

  /** Whatever validation accepts is an instance of the requested model whose
      dump is the record itself. */
  lemma DumpValidated(s: Schema, rec: Record)
    requires Validate(s, rec).Some?
    ensures SchemaOf(Validate(s, rec).value) == s && Dump(Validate(s, rec).value) == rec
  {
    var o := Build(s, rec);
    var d := Dump(o);
    assert |d| == |rec|;
    forall i | 0 <= i < |rec| ensures d[i] == rec[i] {
      match rec[i].1
      case DateTimeValue(_) =>
      case BoolValue(_) =>
      case StrValue(_) =>
      case StrListValue(_) =>
      case StrListListValue(_) =>
    }
  }

  // ---------------------------------------------------------------------
  // Tasks and agents.

  const SendDailySurveyTask: string := "send_daily_survey_task"
  const SummarizeResponsesTask: string := "summarize_responses_task"
  const ReviewPainTask: string := "review_pain_task"
  const GenerateWorkoutPlanTask: string := "generate_workout_plan_task"
  const NutritionPlanTask: string := "nutrition_plan_task"
  const ChefMealPlanTask: string := "chef_meal_plan_task"
  /** Declared as a task but not part of the crew; its configuration entry is
      `check_gym_plans_task`. */
  const UserGoalTask: string := "user_goal_task"

  /** The crew's tasks, in the order the sequential process runs them. */
  const TaskOrder: seq<string> := [
    SendDailySurveyTask, SummarizeResponsesTask, ReviewPainTask,
    GenerateWorkoutPlanTask, NutritionPlanTask, ChefMealPlanTask]

  /** The crew's agents, in the order they are listed. */
  const AgentOrder: seq<string> := ["survey_agent", "summarizer", "trainer", "doctor", "nutritionist", "chef"]

  const GmailSendEmailTool: string := "gmail_send_email"

  /** One entry of `tasks.yaml`: a dictionary of text settings. */
  type TaskConfig = map<string, string>
  type TasksConfig = map<string, TaskConfig>

  datatype Env = Env(goal: Option<string>, recipientEmail: Option<string>)

  /** What task construction raises. */
  datatype BuildError =
    | ConfigValueError(message: string)   // ValueError raised by the task methods
    | MissingKey(key: string)             // KeyError
    | BadTemplate(message: string)        // ValueError raised by str.format

  const GoalNotSetMessage: string := "Goal environment variable not set."
  const RecipientNotSetMessage: string := "RECIPIENT_EMAIL environment variable not set."

  /** A built task: its name, its configuration, its output model and the
      tools given to it directly. */
  datatype TaskSpec = TaskSpec(name: string, config: TaskConfig, outputSchema: Option<Schema>, tools: seq<string>)

  datatype CrewSpec = CrewSpec(agents: seq<string>, tasks: seq<TaskSpec>)

  function Names(tasks: seq<TaskSpec>): (names: seq<string>)
    ensures |names| == |tasks| && forall i :: 0 <= i < |tasks| ==> names[i] == tasks[i].name
  {
    if tasks == [] then [] else [tasks[0].name] + Names(tasks[1..])
  }

  // ---------------------------------------------------------------------
  // `template.format(name=value)`.

  predicate BraceFree(s: string) {
    '{' !in s && '}' !in s
  }

  /** The first `}` at or after position `i`. */
  function FindClose(t: string, i: nat): (r: Option<nat>)
    requires i <= |t|
    ensures r.Some? ==> i <= r.value < |t| && t[r.value] == '}'
                        && forall k :: i <= k < r.value ==> t[k] != '}'
    ensures r.None? ==> forall k :: i <= k < |t| ==> t[k] != '}'
    decreases |t| - i
  {
    if i == |t| then None
    else if t[i] == '}' then Some(i)
    else FindClose(t, i + 1)
  }

  function Prepend(s: string, r: Result<string, BuildError>): Result<string, BuildError> {
    match r
    case Success(x) => Success(s + x)
    case Failure(e) => Failure(e)
  }

  /** `t.format(**{name: value})` for templates whose replacement fields are
      plain names: `{{` and `}}` are literal braces, `{name}` is replaced,
      any other field is a `KeyError`, and an unmatched brace a `ValueError`. */
  function Format(t: string, name: string, value: string): Result<string, BuildError>
    decreases |t|
  {
    if t == [] then Success([])
    else if t[0] == '{' then
      if |t| == 1 then Failure(BadTemplate("Single '{' encountered in format string"))
      else if t[1] == '{' then Prepend("{", Format(t[2..], name, value))
      else
        match FindClose(t, 1)
        case None => Failure(BadTemplate("expected '}' before end of string"))
        case Some(j) =>
          if t[1..j] == name then Prepend(value, Format(t[j + 1..], name, value))
          else Failure(MissingKey(t[1..j]))
    else if t[0] == '}' then
      if |t| >= 2 && t[1] == '}' then Prepend("}", Format(t[2..], name, value))
      else Failure(BadTemplate("Single '}' encountered in format string"))
    else Prepend([t[0]], Format(t[1..], name, value))
  }

  /** Text without braces is left as it is. */
  lemma {:induction false} FormatBraceFree(t: string, name: string, value: string)
    requires BraceFree(t)
    ensures Format(t, name, value) == Success(t)
    decreases |t|
  {
    if t != [] {
      assert t[0] in t;
      assert BraceFree(t[1..]) by {
        forall c | c in t[1..] ensures c in t { }
      }
      FormatBraceFree(t[1..], name, value);
      assert [t[0]] + t[1..] == t;
    }
  }

  /** A `{name}` field behind brace-free text is replaced by the value. */
  lemma {:induction false} FormatField(pre: string, post: string, name: string, value: string)
    requires BraceFree(pre) && BraceFree(name)
    ensures Format(pre + "{" + name + "}" + post, name, value)
            == Prepend(pre + value, Format(post, name, value))
    decreases |pre|
  {
    var t := pre + "{" + name + "}" + post;
    if pre == [] {
      assert t == "{" + name + "}" + post;
      if name == [] {
        assert t[1] == '}';
        assert FindClose(t, 1) == Some(1);
        assert t[2..] == post;
      } else {
        assert t[1] == name[0] && name[0] in name;
        var j := 1 + |name|;
        assert t[j] == '}';
        forall k | 1 <= k < j ensures t[k] != '}' {
          assert t[k] == name[k - 1] && name[k - 1] in name;
        }
        assert FindClose(t, 1) == Some(j);
        assert t[1..j] == name;
        assert t[j + 1..] == post;
      }
      match Format(post, name, value)
      case Success(x) =>
        assert pre + value == value;
      case Failure(e) =>
    } else {
      assert pre[0] in pre;
      assert BraceFree(pre[1..]) by {
        forall c | c in pre[1..] ensures c in pre { }
      }
      assert t[0] == pre[0];
      assert t[1..] == pre[1..] + "{" + name + "}" + post;
      FormatField(pre[1..], post, name, value);
      assert [pre[0]] + pre[1..] == pre;
      match Format(post, name, value)
      case Success(x) =>
        assert [pre[0]] + (pre[1..] + value + x) == pre + value + x;
      case Failure(e) =>
    }
  }

  // ---------------------------------------------------------------------
  // Building the tasks.

  /** `self.tasks_config[key]`. */
  function ConfigEntry(tasksConfig: TasksConfig, key: string): Result<TaskConfig, BuildError> {
    if key in tasksConfig then Success(tasksConfig[key]) else Failure(MissingKey(key))
  }

  /** The copied configuration with its description formatted:
      `c = cfg.copy(); c['description'] = c['description'].format(key=value)`. */
  function WithDescription(cfg: TaskConfig, key: string, value: string): Result<TaskConfig, BuildError> {
    if "description" !in cfg then Failure(MissingKey("description"))
    else
      match Format(cfg["description"], key, value)
      case Failure(e) => Failure(e)
      case Success(d) => Success(cfg["description" := d])
  }

  /** A task built straight from its configuration entry. */
  function PlainTask(tasksConfig: TasksConfig, name: string, configKey: string, schema: Option<Schema>)
    : Result<TaskSpec, BuildError>
  {
    var cfg :- ConfigEntry(tasksConfig, configKey);
    Success(TaskSpec(name, cfg, schema, []))
  }

  /** `generate_workout_plan_task` and `nutrition_plan_task`: the goal is
      checked before the configuration is read, then substituted into the
      description of a copy of the configuration. */
  function GoalTask(env: Env, tasksConfig: TasksConfig, name: string, schema: Schema)
    : Result<TaskSpec, BuildError>
  {
    if !IsSet(env.goal) then Failure(ConfigValueError(GoalNotSetMessage))
    else
      var cfg :- ConfigEntry(tasksConfig, name);
      var described :- WithDescription(cfg, "goal", env.goal.value);
      Success(TaskSpec(name, described, Some(schema), []))
  }

  /** `send_daily_survey_task`: the configuration is copied first, then the
      recipient is checked and substituted; the task gets the Gmail tool. */
  function SurveyTask(env: Env, tasksConfig: TasksConfig): Result<TaskSpec, BuildError> {
    var cfg :- ConfigEntry(tasksConfig, SendDailySurveyTask);
    if !IsSet(env.recipientEmail) then Failure(ConfigValueError(RecipientNotSetMessage))
    else
      var described :- WithDescription(cfg, "recipient_email", env.recipientEmail.value);
      Success(TaskSpec(SendDailySurveyTask, described, None, [GmailSendEmailTool]))
  }

  /** `user_goal_task`, which no crew uses. */
  function UserGoalTaskSpec(tasksConfig: TasksConfig): Result<TaskSpec, BuildError> {
    PlainTask(tasksConfig, UserGoalTask, "check_gym_plans_task", Some(GymKnowledgeSchema))
  }

  /** `crew()`: the tasks are built in list order, so the first failing check
      is the one raised. */
  function BuildCrew(env: Env, tasksConfig: TasksConfig): Result<CrewSpec, BuildError> {
    var survey :- SurveyTask(env, tasksConfig);
    var summarize :- PlainTask(tasksConfig, SummarizeResponsesTask, SummarizeResponsesTask, None);
    var review :- PlainTask(tasksConfig, ReviewPainTask, ReviewPainTask, Some(ReviewPainSchema));
    var workout :- GoalTask(env, tasksConfig, GenerateWorkoutPlanTask, TomorrowWorkoutPlanSchema);
    var nutrition :- GoalTask(env, tasksConfig, NutritionPlanTask, NutritionSchema);
    var chef :- PlainTask(tasksConfig, ChefMealPlanTask, ChefMealPlanTask, Some(MealPlanSchema));
    Success(CrewSpec(AgentOrder, [survey, summarize, review, workout, nutrition, chef]))
  }

  // ---------------------------------------------------------------------
  // Properties of task building.

  /** A built crew runs the six tasks in the fixed order, each with its
      output model, and lists the six agents in their fixed order. */
  lemma CrewOrder(env: Env, tasksConfig: TasksConfig)
    requires BuildCrew(env, tasksConfig).Success?
    ensures var crew := BuildCrew(env, tasksConfig).value;
            && Names(crew.tasks) == TaskOrder
            && crew.agents == AgentOrder
            && crew.tasks[0].outputSchema.None? && crew.tasks[1].outputSchema.None?
            && crew.tasks[2].outputSchema == Some(ReviewPainSchema)
            && crew.tasks[3].outputSchema == Some(TomorrowWorkoutPlanSchema)
            && crew.tasks[4].outputSchema == Some(NutritionSchema)
            && crew.tasks[5].outputSchema == Some(MealPlanSchema)
  {
    var crew := BuildCrew(env, tasksConfig).value;
    assert Names(crew.tasks) == [crew.tasks[0].name] + Names(crew.tasks[1..]);
  }

  /** Without a goal the goal tasks fail with the goal error before their
      configuration is even read, and no crew is built. */
  lemma MissingGoalFails(env: Env, tasksConfig: TasksConfig, name: string, schema: Schema)
    requires !IsSet(env.goal)
    ensures GoalTask(env, tasksConfig, name, schema) == Failure(ConfigValueError(GoalNotSetMessage))
    ensures BuildCrew(env, tasksConfig).Failure?
  {
  }

  /** Without a recipient no crew is built; when the survey task's
      configuration exists the error raised is the recipient error. */
  lemma MissingRecipientFails(env: Env, tasksConfig: TasksConfig)
    requires !IsSet(env.recipientEmail)
    ensures BuildCrew(env, tasksConfig).Failure?
    ensures SendDailySurveyTask in tasksConfig ==>
              BuildCrew(env, tasksConfig) == Failure(ConfigValueError(RecipientNotSetMessage))
  {
  }

  /** With a goal, the built task's configuration is the original entry with
      only `description` replaced by the formatted template. */
  lemma GoalSubstitution(env: Env, tasksConfig: TasksConfig, name: string, schema: Schema)
    requires GoalTask(env, tasksConfig, name, schema).Success?
    ensures IsSet(env.goal) && name in tasksConfig && "description" in tasksConfig[name]
    ensures var cfg := tasksConfig[name];
            var built := GoalTask(env, tasksConfig, name, schema).value.config;
            && built.Keys == cfg.Keys
            && (forall k :: k in cfg && k != "description" ==> built[k] == cfg[k])
            && Format(cfg["description"], "goal", env.goal.value) == Success(built["description"])
  {
    var cfg := tasksConfig[name];
    var built := GoalTask(env, tasksConfig, name, schema).value.config;
    assert built.Keys == cfg.Keys;
  }

  /** The goal appears in the description exactly where its placeholder was;
      every other setting of the entry is kept. */
  lemma GoalPlaceholderReplaced(env: Env, tasksConfig: TasksConfig, name: string, schema: Schema,
                                pre: string, post: string)
    requires IsSet(env.goal) && name in tasksConfig
    requires "description" in tasksConfig[name]
    requires tasksConfig[name]["description"] == pre + "{goal}" + post
    requires BraceFree(pre) && BraceFree(post)
    ensures GoalTask(env, tasksConfig, name, schema)
            == Success(TaskSpec(name, tasksConfig[name]["description" := pre + env.goal.value + post],
                                Some(schema), []))
  {
    assert pre + "{goal}" + post == pre + "{" + "goal" + "}" + post;
    FormatField(pre, post, "goal", env.goal.value);
    FormatBraceFree(post, "goal", env.goal.value);
  }

  /** The crew is built exactly when both variables are set, all six entries
      exist, and the three formatted descriptions exist and format. The other
      three descriptions are never formatted, so their contents do not matter. */
  lemma CrewBuildsIff(env: Env, tasksConfig: TasksConfig)
    ensures BuildCrew(env, tasksConfig).Success? <==>
              && IsSet(env.goal) && IsSet(env.recipientEmail)
              && (forall k :: k in TaskOrder ==> k in tasksConfig)
              && WithDescription(tasksConfig[SendDailySurveyTask], "recipient_email", env.recipientEmail.value).Success?
              && WithDescription(tasksConfig[GenerateWorkoutPlanTask], "goal", env.goal.value).Success?
              && WithDescription(tasksConfig[NutritionPlanTask], "goal", env.goal.value).Success?
  {
  }

  /** The recipient appears in the survey description exactly where its
      placeholder was; every other setting of the entry is kept. */
  lemma RecipientPlaceholderReplaced(env: Env, tasksConfig: TasksConfig, pre: string, post: string)
    requires IsSet(env.recipientEmail) && SendDailySurveyTask in tasksConfig
    requires "description" in tasksConfig[SendDailySurveyTask]
    requires tasksConfig[SendDailySurveyTask]["description"] == pre + "{recipient_email}" + post
    requires BraceFree(pre) && BraceFree(post)
    ensures SurveyTask(env, tasksConfig)
            == Success(TaskSpec(SendDailySurveyTask,
                                tasksConfig[SendDailySurveyTask]["description" := pre + env.recipientEmail.value + post],
                                None, [GmailSendEmailTool]))
  {
    assert pre + "{recipient_email}" + post == pre + "{" + "recipient_email" + "}" + post;
    FormatField(pre, post, "recipient_email", env.recipientEmail.value);
    FormatBraceFree(post, "recipient_email", env.recipientEmail.value);
  }

  /** A configuration whose three formatted descriptions hold the
      placeholders the code fills in builds, with the placeholders filled;
      the other three entries are taken as they are, braces and all. */
  lemma CrewBuildsWithPlaceholders(env: Env, tasksConfig: TasksConfig,
                                   surveyPre: string, surveyPost: string,
                                   workoutPre: string, workoutPost: string,
                                   nutritionPre: string, nutritionPost: string)
    requires IsSet(env.goal) && IsSet(env.recipientEmail)
    requires forall k :: k in TaskOrder ==> k in tasksConfig
    requires "description" in tasksConfig[SendDailySurveyTask]
             && tasksConfig[SendDailySurveyTask]["description"] == surveyPre + "{recipient_email}" + surveyPost
             && BraceFree(surveyPre) && BraceFree(surveyPost)
    requires "description" in tasksConfig[GenerateWorkoutPlanTask]
             && tasksConfig[GenerateWorkoutPlanTask]["description"] == workoutPre + "{goal}" + workoutPost
             && BraceFree(workoutPre) && BraceFree(workoutPost)
    requires "description" in tasksConfig[NutritionPlanTask]
             && tasksConfig[NutritionPlanTask]["description"] == nutritionPre + "{goal}" + nutritionPost
             && BraceFree(nutritionPre) && BraceFree(nutritionPost)
    ensures var built := BuildCrew(env, tasksConfig);
            && built.Success?
            && built.value.tasks[0].config
               == tasksConfig[SendDailySurveyTask]["description" := surveyPre + env.recipientEmail.value + surveyPost]
            && built.value.tasks[1].config == tasksConfig[SummarizeResponsesTask]
            && built.value.tasks[2].config == tasksConfig[ReviewPainTask]
            && built.value.tasks[3].config
               == tasksConfig[GenerateWorkoutPlanTask]["description" := workoutPre + env.goal.value + workoutPost]
            && built.value.tasks[4].config
               == tasksConfig[NutritionPlanTask]["description" := nutritionPre + env.goal.value + nutritionPost]
            && built.value.tasks[5].config == tasksConfig[ChefMealPlanTask]
  {
    assert SendDailySurveyTask in TaskOrder && GenerateWorkoutPlanTask in TaskOrder && NutritionPlanTask in TaskOrder;
    RecipientPlaceholderReplaced(env, tasksConfig, surveyPre, surveyPost);
    GoalPlaceholderReplaced(env, tasksConfig, GenerateWorkoutPlanTask, TomorrowWorkoutPlanSchema, workoutPre, workoutPost);
    GoalPlaceholderReplaced(env, tasksConfig, NutritionPlanTask, NutritionSchema, nutritionPre, nutritionPost);
  }

  /** The survey task's configuration is read before the recipient is
      checked: a missing entry is the first error, whatever the environment. */
  lemma SurveyConfigReadFirst(env: Env, tasksConfig: TasksConfig)
    requires SendDailySurveyTask !in tasksConfig
    ensures BuildCrew(env, tasksConfig) == Failure(MissingKey(SendDailySurveyTask))
  {
  }

  /** A built survey task carries the Gmail tool, no output model, and its
      configuration with only `description` replaced by the template
      formatted with the recipient. */
  lemma SurveySubstitution(env: Env, tasksConfig: TasksConfig)
    requires SurveyTask(env, tasksConfig).Success?
    ensures IsSet(env.recipientEmail) && SendDailySurveyTask in tasksConfig
            && "description" in tasksConfig[SendDailySurveyTask]
    ensures var cfg := tasksConfig[SendDailySurveyTask];
            var built := SurveyTask(env, tasksConfig).value;
            && built.tools == [GmailSendEmailTool] && built.outputSchema.None?
            && built.config.Keys == cfg.Keys
            && (forall k :: k in cfg && k != "description" ==> built.config[k] == cfg[k])
            && Format(cfg["description"], "recipient_email", env.recipientEmail.value)
               == Success(built.config["description"])
  {
    var cfg := tasksConfig[SendDailySurveyTask];
    assert SurveyTask(env, tasksConfig).value.config.Keys == cfg.Keys;
  }

  /** In a built crew only the survey task is given a tool of its own. */
  lemma OnlySurveyHasTools(env: Env, tasksConfig: TasksConfig)
    requires BuildCrew(env, tasksConfig).Success?
    ensures var tasks := BuildCrew(env, tasksConfig).value.tasks;
            && |tasks| == |TaskOrder|
            && tasks[0].tools == [GmailSendEmailTool]
            && forall i :: 1 <= i < |tasks| ==> tasks[i].tools == []
  {
  }

  /** `user_goal_task` reads the `check_gym_plans_task` entry, validates to
      `gym_knowledge`, and is not one of the crew's tasks. */
  lemma UserGoalTaskOutsideCrew(tasksConfig: TasksConfig)
    ensures UserGoalTask !in TaskOrder
    ensures UserGoalTaskSpec(tasksConfig).Success? <==> "check_gym_plans_task" in tasksConfig
    ensures UserGoalTaskSpec(tasksConfig).Success? ==>
              UserGoalTaskSpec(tasksConfig).value
              == TaskSpec(UserGoalTask, tasksConfig["check_gym_plans_task"], Some(GymKnowledgeSchema), [])
  {
  }

  // ---------------------------------------------------------------------
  // `gmail_send_email`.

  /** The call made to the Composio Gmail tool. */
  datatype EmailRequest = EmailRequest(recipientEmail: string, subject: string, body: string, isHtml: bool)

  /** The `"error"` entry of the tool's result: absent, `None`, or text. */
  datatype ErrorField = NoErrorKey | NullError | ErrorText(text: string)

  /** The tool's result dictionary: the truthiness of `result.get('successful')`
      and the `"error"` entry. */
  datatype SendReply = SendReply(successful: bool, error: ErrorField)

  /** The Gmail send tool: its result, or the message of what it raised. */
  type GmailSend = EmailRequest -> Result<SendReply, string>

  const DefaultSubject: string := "Daily Gym Feedback"
  const NotInitialisedMessage: string := "Error: Gmail tool not initialized."
  const SentMessage: string := "Email sent successfully!"
  const SendErrorPrefix: string := "Error sending email: "

  /** How an `"error"` entry is rendered: its `'Unknown error'` default, or
      `str()` of the value. */
  function ErrorText(e: ErrorField): string {
    match e
    case NoErrorKey => "Unknown error"
    case NullError => "None"
    case ErrorText(t) => t
  }

  /** The request the tool sends: the survey email as an HTML body, under the
      given subject or, when none is passed, the default one. */
  function SentRequest(recipientEmail: string, subject: Option<string>, surveyEmail: string): EmailRequest {
    EmailRequest(recipientEmail, subject.GetOr(DefaultSubject), surveyEmail, true)
  }

  /** `gmail_send_email(recipient_email, subject, body)`. `tool` is the module's
      `gmail_send_tool` (`None` when Composio returned no tool) and
      `surveyEmail` the HTML of `get_survey_email()`; `subject` and `body` are
      `None` when the caller leaves them out, and `body` is never read. */
  function GmailSendEmail(tool: Option<GmailSend>, surveyEmail: string,
                          recipientEmail: string, subject: Option<string>, body: Option<string>): string
  {
    if tool.None? then NotInitialisedMessage
    else
      match tool.value(SentRequest(recipientEmail, subject, surveyEmail))
      case Failure(e) => SendErrorPrefix + e
      case Success(reply) =>
        if reply.successful then SentMessage else SendErrorPrefix + ErrorText(reply.error)
  }

  /** The answer depends only on what the Gmail tool does with the survey
      email sent as HTML, under the given subject or "Daily Gym Feedback";
      the `body` argument never matters. */
  lemma BodyArgumentIgnored(t1: GmailSend, t2: GmailSend, surveyEmail: string,
                            recipientEmail: string, subject: Option<string>, b1: Option<string>, b2: Option<string>)
    requires t1(SentRequest(recipientEmail, subject, surveyEmail)) == t2(SentRequest(recipientEmail, subject, surveyEmail))
    ensures GmailSendEmail(Some(t1), surveyEmail, recipientEmail, subject, b1)
            == GmailSendEmail(Some(t2), surveyEmail, recipientEmail, subject, b2)
    ensures SentRequest(recipientEmail, subject, surveyEmail)
            == EmailRequest(recipientEmail, if subject.Some? then subject.value else "Daily Gym Feedback",
                            surveyEmail, true)
  {
  }

  /** The tool reports success exactly when the Gmail tool exists, did not
      raise, and said `successful`; every other outcome is reported as an error. */
  lemma SendResultMapping(tool: Option<GmailSend>, surveyEmail: string,
                          recipientEmail: string, subject: Option<string>, body: Option<string>)
    ensures var r := GmailSendEmail(tool, surveyEmail, recipientEmail, subject, body);
            && (tool.None? ==> r == NotInitialisedMessage)
            && (r == SentMessage <==>
                  tool.Some?
                  && var call := tool.value(SentRequest(recipientEmail, subject, surveyEmail));
                     call.Success? && call.value.successful)
    ensures tool.Some? ==>
              var r := GmailSendEmail(tool, surveyEmail, recipientEmail, subject, body);
              var call := tool.value(SentRequest(recipientEmail, subject, surveyEmail));
              && (call.Failure? ==> r == SendErrorPrefix + call.error)
              && (call.Success? && !call.value.successful ==>
                    r == SendErrorPrefix + ErrorText(call.value.error))
  {
    assert NotInitialisedMessage[1] != SentMessage[1];
    forall e: string ensures SendErrorPrefix + e != SentMessage {
      assert (SendErrorPrefix + e)[1] != SentMessage[1];
    }
  }
}
