/** Plans as rows: their tasks as a JSON array, their enumerations as text (PlanRepository.cs, SqlValues.cs). */
module PlanRows {
  import opened Wrappers
  import opened Domain

  /** The names of a task's fields, and any other. */
  datatype Key =
    | IdKey | ObjectiveKey | RiskKey | ParallelizableKey
    | DependenciesKey | WriteScopeKey | GatesKey | CapabilitiesKey
    | OtherKey(name: string)

  datatype Json =
    | JNull
    | JBool(flag: bool)
    | JNumber(number: int)
    | JString(text: string)
    | JArray(items: seq<Json>)
    | JObject(fields: map<Key, Json>)

  /** Stored text that reads as no value, or as one of the wrong kind. */
  datatype ReadError = Unreadable | WrongKind

  // --- spellings --------------------------------------------------------------------------

  function RiskText(risk: RiskLevel): string {
    match risk case Low => "low" case Medium => "medium" case High => "high"
  }

  function RiskOf(text: string): Result<RiskLevel, ReadError> {
    if text == "low" then Ok(Low) else if text == "medium" then Ok(Medium) else if text == "high" then Ok(High)
    else Err(Unreadable)
  }

  function GateText(gate: GateKind): string {
    match gate case Build => "build" case Tests => "tests" case Review => "review" case Documentation => "documentation"
  }

  function GateOf(text: string): Result<GateKind, ReadError> {
    if text == "build" then Ok(Build) else if text == "tests" then Ok(Tests) else if text == "review" then Ok(Review)
    else if text == "documentation" then Ok(Documentation)
    else Err(Unreadable)
  }

  function PlanStateText(state: PlanState): string {
    match state case Draft => "DRAFT" case Locked => "LOCKED" case Consumed => "CONSUMED"
  }

  function PlanStateOf(text: string): Result<PlanState, ReadError> {
    if text == "DRAFT" then Ok(Draft) else if text == "LOCKED" then Ok(Locked)
    else if text == "CONSUMED" then Ok(Consumed)
    else Err(Unreadable)
  }

  function AutonomyText(autonomy: AutonomyLevel): string {
    match autonomy case Supervised => "supervised" case Agentic => "agentic"
  }

  function AutonomyOf(text: string): Result<AutonomyLevel, ReadError> {
    if text == "supervised" then Ok(Supervised) else if text == "agentic" then Ok(Agentic) else Err(Unreadable)
  }

  // --- writing ----------------------------------------------------------------------------------

  function Strings(values: seq<string>): seq<Json> {
    seq(|values|, i requires 0 <= i < |values| => JString(values[i]))
  }

  function TaskText(id: TaskId): string { id.value }

  function TaskOfText(text: string): TaskId { TaskId(text) }

  function PathOfText(text: string): ProjectPath { ProjectPath(text) }

  function PathText(path: ProjectPath): string { path.value }

  function Map<T, U>(f: T -> U, xs: seq<T>): (ys: seq<U>)
    ensures |ys| == |xs| && forall i :: 0 <= i < |xs| ==> ys[i] == f(xs[i])
  {
    seq(|xs|, i requires 0 <= i < |xs| => f(xs[i]))
  }

  function ToObject(task: PlanTask): Json {
    JObject(map[
      IdKey := JString(task.id.value),
      ObjectiveKey := JString(task.objective),
      RiskKey := JString(RiskText(task.risk)),
      ParallelizableKey := JBool(task.parallelizable),
      DependenciesKey := JArray(Strings(Map(TaskText, task.dependencies))),
      WriteScopeKey := JArray(Strings(Map(PathText, task.writeScope))),
      GatesKey := JArray(Strings(Map(GateText, task.gates))),
      CapabilitiesKey := JArray(Strings(task.capabilities))
    ])
  }

  method SerializeTasks(tasks: seq<PlanTask>) returns (json: Json)
    ensures json == JArray(Map(ToObject, tasks))
  {
    var items: seq<Json> := [];
    for i := 0 to |tasks|
      invariant items == Map(ToObject, tasks)[..i]
    {
      items := items + [ToObject(tasks[i])];
    }
    return JArray(items);
  }

  // --- reading -------------------------------------------------------------------------------------

  /** The field, unless it is missing or null. */
  function Field(node: map<Key, Json>, key: Key): Option<Json> {
    if key in node && !node[key].JNull? then Some(node[key]) else None
  }

  function TextOf(node: map<Key, Json>, key: Key): Result<string, ReadError> {
    match Field(node, key)
    case None => Ok("")
    case Some(JString(text)) => Ok(text)
    case Some(_) => Err(WrongKind)
  }

  function FlagOf(node: map<Key, Json>, key: Key): Result<bool, ReadError> {
    match Field(node, key)
    case None => Ok(false)
    case Some(JBool(flag)) => Ok(flag)
    case Some(_) => Err(WrongKind)
  }

  function ItemText(item: Json): Result<string, ReadError> {
    match item
    case JNull => Ok("")
    case JString(text) => Ok(text)
    case _ => Err(WrongKind)
  }

  /** Every element read, or the first error. */
  function Every<T, U>(read: T -> Result<U, ReadError>, xs: seq<T>): (r: Result<seq<U>, ReadError>) {
    if xs == [] then Ok([])
    else
      var first :- read(xs[0]);
      var rest :- Every(read, xs[1..]);
      Ok([first] + rest)
  }

  function StringsOf(node: map<Key, Json>, key: Key): Result<seq<string>, ReadError> {
    match Field(node, key)
    case Some(JArray(items)) => Every(ItemText, items)
    case _ => Ok([])
  }

  function FromObject(node: map<Key, Json>): Result<PlanTask, ReadError> {
    var id :- TextOf(node, IdKey);
    var objective :- TextOf(node, ObjectiveKey);
    var riskText :- TextOf(node, RiskKey);
    var risk :- RiskOf(riskText);
    var parallelizable :- FlagOf(node, ParallelizableKey);
    var dependencies :- StringsOf(node, DependenciesKey);
    var writeScope :- StringsOf(node, WriteScopeKey);
    var gateTexts :- StringsOf(node, GatesKey);
    var gates :- Every(GateOf, gateTexts);
    var capabilities :- StringsOf(node, CapabilitiesKey);
    Ok(PlanTask(TaskId(id), objective, risk, parallelizable, Map(TaskOfText, dependencies),
                Map(PathOfText, writeScope), gates, capabilities))
  }

  /** The tasks the objects of an array read as; anything else among them is skipped. */
  function TasksOf(items: seq<Json>): Result<seq<PlanTask>, ReadError> {
    if items == [] then Ok([])
    else if !items[0].JObject? then TasksOf(items[1..])
    else
      var first :- FromObject(items[0].fields);
      var rest :- TasksOf(items[1..]);
      Ok([first] + rest)
  }

  function ReadTasks(json: Json): Result<seq<PlanTask>, ReadError> {
    if json.JArray? then TasksOf(json.items) else Ok([])
  }

  method DeserializeTasks(json: Json) returns (r: Result<seq<PlanTask>, ReadError>)
    ensures r == ReadTasks(json)
  {
    if !json.JArray? {
      return Ok([]);
    }
    var items := json.items;
    var tasks: seq<PlanTask> := [];
    assert items[0..] == items;
    PrependNone(TasksOf(items));
    for i := 0 to |items|
      invariant TasksOf(items) == Prepend(tasks, TasksOf(items[i..]))
    {
      assert items[i..][0] == items[i] && items[i..][1..] == items[i + 1..];
      if items[i].JObject? {
        var task :- FromObject(items[i].fields);
        PrependOne(tasks, task, TasksOf(items[i + 1..]));
        tasks := tasks + [task];
      }
    }
    assert items[|items|..] == [] && tasks + [] == tasks;
    return Ok(tasks);
  }

  lemma PrependNone(rest: Result<seq<PlanTask>, ReadError>)
    ensures Prepend([], rest) == rest
  {
    if rest.Ok? {
      assert [] + rest.value == rest.value;
    }
  }

  ghost function Prepend(tasks: seq<PlanTask>, rest: Result<seq<PlanTask>, ReadError>): Result<seq<PlanTask>,
                         ReadError> {
    match rest case Ok(more) => Ok(tasks + more) case Err(error) => Err(error)
  }

  lemma PrependOne(tasks: seq<PlanTask>, task: PlanTask, rest: Result<seq<PlanTask>, ReadError>)
    ensures Prepend(tasks, Prepend([task], rest)) == Prepend(tasks + [task], rest)
  {
    if rest.Ok? {
      assert tasks + ([task] + rest.value) == tasks + [task] + rest.value;
    }
  }

  // --- reading what was written ---------------------------------------------------------------------

  lemma {:induction false} EveryReadsBack<T, U>(write: U -> T, read: T -> Result<U, ReadError>, xs: seq<U>)
    requires forall x :: x in xs ==> read(write(x)) == Ok(x)
    ensures Every(read, Map(write, xs)) == Ok(xs)
  {
    if xs != [] {
      EveryReadsBack(write, read, xs[1..]);
      assert Map(write, xs)[1..] == Map(write, xs[1..]);
      assert xs[0] in xs && xs == [xs[0]] + xs[1..];
    }
  }

  lemma StringsReadBack(values: seq<string>)
    ensures Every(ItemText, Strings(values)) == Ok(values)
  {
    var write := (s: string) => JString(s);
    EveryReadsBack(write, ItemText, values);
    assert Map(write, values) == Strings(values);
  }

  lemma ListReadsBack(node: map<Key, Json>, key: Key, values: seq<string>)
    requires key in node && node[key] == JArray(Strings(values))
    ensures StringsOf(node, key) == Ok(values)
  {
    StringsReadBack(values);
  }

  lemma MapsBack<T, U>(there: T -> U, back: U -> T, xs: seq<T>)
    requires forall x :: back(there(x)) == x
    ensures Map(back, Map(there, xs)) == xs
  {
  }

  lemma ListsReadBack(task: PlanTask)
    ensures var node := ToObject(task).fields;
      && StringsOf(node, DependenciesKey) == Ok(Map(TaskText, task.dependencies))
      && StringsOf(node, WriteScopeKey) == Ok(Map(PathText, task.writeScope))
      && StringsOf(node, GatesKey) == Ok(Map(GateText, task.gates))
      && StringsOf(node, CapabilitiesKey) == Ok(task.capabilities)
  {
    var node := ToObject(task).fields;
    ListReadsBack(node, DependenciesKey, Map(TaskText, task.dependencies));
    ListReadsBack(node, WriteScopeKey, Map(PathText, task.writeScope));
    ListReadsBack(node, GatesKey, Map(GateText, task.gates));
    ListReadsBack(node, CapabilitiesKey, task.capabilities);
  }

  lemma ScalarsReadBack(task: PlanTask)
    ensures var node := ToObject(task).fields;
      && TextOf(node, IdKey) == Ok(task.id.value)
      && TextOf(node, ObjectiveKey) == Ok(task.objective)
      && TextOf(node, RiskKey) == Ok(RiskText(task.risk))
      && FlagOf(node, ParallelizableKey) == Ok(task.parallelizable)
  {
  }

  lemma SpellingsReadBack(risk: RiskLevel)
    ensures RiskOf(RiskText(risk)) == Ok(risk)
  {
    assert "low"[0] != "medium"[0] && "low"[0] != "high"[0] && "medium"[0] != "high"[0];
  }

  lemma GateReadsBack(gate: GateKind)
    ensures GateOf(GateText(gate)) == Ok(gate)
  {
    match gate
    case Build =>
    case Tests => assert "tests"[0] != "build"[0];
    case Review => assert "review"[0] != "build"[0] && "review"[0] != "tests"[0];
    case Documentation =>
      assert "documentation"[0] != "build"[0] && "documentation"[0] != "tests"[0];
      assert "documentation"[0] != "review"[0];
  }

  lemma GatesReadBack(gates: seq<GateKind>)
    ensures Every(GateOf, Map(GateText, gates)) == Ok(gates)
  {
    forall gate | gate in gates ensures GateOf(GateText(gate)) == Ok(gate) {
      GateReadsBack(gate);
    }
    EveryReadsBack(GateText, GateOf, gates);
  }

  lemma ObjectReadsBack(task: PlanTask)
    ensures FromObject(ToObject(task).fields) == Ok(task)
  {
    ScalarsReadBack(task);
    ListsReadBack(task);
    GatesReadBack(task.gates);
    SpellingsReadBack(task.risk);
    MapsBack(TaskText, TaskOfText, task.dependencies);
    MapsBack(PathText, PathOfText, task.writeScope);
  }

  /** Reading back what was written gives the same tasks. */
  lemma {:induction false} TasksReadBack(tasks: seq<PlanTask>)
    ensures ReadTasks(JArray(Map(ToObject, tasks))) == Ok(tasks)
  {
    if tasks != [] {
      TasksReadBack(tasks[1..]);
      ObjectReadsBack(tasks[0]);
      assert Map(ToObject, tasks)[1..] == Map(ToObject, tasks[1..]);
      assert tasks == [tasks[0]] + tasks[1..];
    }
  }

  // --- whole rows -----------------------------------------------------------------------------------------

  datatype PlanRow = PlanRow(
    id: string, projectId: string, goalId: string, goalRevision: string, state: string,
    autonomy: string, runner: string, integrationTarget: string, createdAt: Moment, tasks: Json)

  function RowOf(plan: Plan): PlanRow {
    PlanRow(plan.id.value, plan.projectId, plan.goalId.value, plan.goalRevision, PlanStateText(plan.state),
            AutonomyText(plan.autonomy), plan.runner, plan.integrationTarget, plan.createdAt,
            JArray(Map(ToObject, plan.tasks)))
  }

  function PlanOf(row: PlanRow): Result<Plan, ReadError> {
    var state :- PlanStateOf(row.state);
    var autonomy :- AutonomyOf(row.autonomy);
    var tasks :- ReadTasks(row.tasks);
    Ok(Plan(PlanId(row.id), row.projectId, GoalId(row.goalId), row.goalRevision, state, autonomy, row.runner,
            row.integrationTarget, row.createdAt, tasks))
  }

  lemma HeaderReadsBack(plan: Plan)
    ensures PlanStateOf(PlanStateText(plan.state)) == Ok(plan.state)
    ensures AutonomyOf(AutonomyText(plan.autonomy)) == Ok(plan.autonomy)
  {
    assert "LOCKED"[0] != "DRAFT"[0] && "CONSUMED"[0] != "DRAFT"[0] && "CONSUMED"[0] != "LOCKED"[0];
    assert "agentic"[0] != "supervised"[0];
  }

  lemma PlanReadsBack(plan: Plan)
    ensures PlanOf(RowOf(plan)) == Ok(plan)
  {
    HeaderReadsBack(plan);
    TasksReadBack(plan.tasks);
  }

  /** Comparing persisted forms, as the store does, is comparing the plans themselves. */
  lemma RowsDifferIff(existing: Plan, incoming: Plan)
    ensures RowOf(existing) != RowOf(incoming) <==> existing != incoming
  {
    PlanReadsBack(existing);
    PlanReadsBack(incoming);
  }

  // --- reading what is not there ------------------------------------------------------------------

  /** Only the risk is demanded: what is missing or null reads as empty, and anything unknown is ignored. */
  lemma SparseReads(node: map<Key, Json>, risk: RiskLevel)
    requires Raw(node, RiskKey) == JString(RiskText(risk))
    requires forall key: Key :: key != RiskKey ==> Raw(node, key).JNull?
    ensures FromObject(node) == Ok(PlanTask(TaskId(""), "", risk, false, [], [], [], []))
  {
    SpellingsReadBack(risk);
    forall key: Key | key != RiskKey ensures Field(node, key).None? {
      assert Raw(node, key).JNull?;
    }
  }

  lemma {:induction false} EveryIff<T, U>(read: T -> Result<U, ReadError>, xs: seq<T>)
    ensures Every(read, xs).Ok? <==> forall i :: 0 <= i < |xs| ==> read(xs[i]).Ok?
    ensures Every(read, xs).Ok? ==>
      && |Every(read, xs).value| == |xs|
      && forall i :: 0 <= i < |xs| ==> read(xs[i]) == Ok(Every(read, xs).value[i])
  {
    if xs != [] {
      EveryIff(read, xs[1..]);
      assert forall i :: 0 < i < |xs| ==> xs[i] == xs[1..][i - 1];
    }
  }

  /** What stands under the key; nothing there is no different from null. */
  function Raw(node: map<Key, Json>, key: Key): Json {
    if key in node then node[key] else JNull
  }

  predicate IsText(item: Json) {
    item.JString? || item.JNull?
  }

  predicate AllText(node: map<Key, Json>, key: Key) {
    Raw(node, key).JArray? ==> forall i :: 0 <= i < |Raw(node, key).items| ==> IsText(Raw(node, key).items[i])
  }

  predicate KnownGate(item: Json) {
    item.JString? && item.text in {"build", "tests", "review", "documentation"}
  }

  predicate KnownGates(node: map<Key, Json>) {
    Raw(node, GatesKey).JArray? ==>
      forall i :: 0 <= i < |Raw(node, GatesKey).items| ==> KnownGate(Raw(node, GatesKey).items[i])
  }

  lemma StringsIff(node: map<Key, Json>, key: Key)
    ensures StringsOf(node, key).Ok? <==> AllText(node, key)
  {
    if Raw(node, key).JArray? {
      EveryIff(ItemText, Raw(node, key).items);
    }
  }

  lemma GatesIff(node: map<Key, Json>)
    ensures KnownGates(node) <==> StringsOf(node, GatesKey).Ok? && Every(GateOf, StringsOf(node, GatesKey).value).Ok?
  {
    StringsIff(node, GatesKey);
    if Raw(node, GatesKey).JArray? && AllText(node, GatesKey) {
      var items, texts := Raw(node, GatesKey).items, StringsOf(node, GatesKey).value;
      EveryIff(ItemText, items);
      EveryIff(GateOf, texts);
      forall i | 0 <= i < |items| ensures KnownGate(items[i]) <==> GateOf(texts[i]).Ok? {
        assert ItemText(items[i]) == Ok(texts[i]);
      }
    }
  }

  lemma ScalarsIff(node: map<Key, Json>)
    ensures TextOf(node, IdKey).Ok? <==> IsText(Raw(node, IdKey))
    ensures TextOf(node, ObjectiveKey).Ok? <==> IsText(Raw(node, ObjectiveKey))
    ensures FlagOf(node, ParallelizableKey).Ok? <==>
      Raw(node, ParallelizableKey).JBool? || Raw(node, ParallelizableKey).JNull?
    ensures TextOf(node, RiskKey).Ok? && RiskOf(TextOf(node, RiskKey).value).Ok? <==>
      Raw(node, RiskKey).JString? && Raw(node, RiskKey).text in {"low", "medium", "high"}
  {
  }

  /** An object reads exactly if its risk and gates have known names and nothing in it is of another kind. */
  lemma ReadsIff(node: map<Key, Json>)
    ensures FromObject(node).Ok? <==>
      && Raw(node, RiskKey).JString? && Raw(node, RiskKey).text in {"low", "medium", "high"}
      && IsText(Raw(node, IdKey)) && IsText(Raw(node, ObjectiveKey))
      && (Raw(node, ParallelizableKey).JBool? || Raw(node, ParallelizableKey).JNull?)
      && AllText(node, DependenciesKey) && AllText(node, WriteScopeKey) && AllText(node, CapabilitiesKey)
      && KnownGates(node)
  {
    ScalarsIff(node);
    StringsIff(node, DependenciesKey);
    StringsIff(node, WriteScopeKey);
    StringsIff(node, CapabilitiesKey);
    GatesIff(node);
  }

  function OrEmpty(item: Json): Json {
    if item.JNull? then JString("") else item
  }

  /** Null says nothing: not as a field, and among the items of a list no more than the empty text. */
  lemma NullsAreBlank(node: map<Key, Json>, items: seq<Json>)
    ensures FromObject(node) == FromObject(map key | key in node && !node[key].JNull? :: node[key])
    ensures Every(ItemText, items) == Every(ItemText, Map(OrEmpty, items))
  {
    var present := map key | key in node && !node[key].JNull? :: node[key];
    forall key ensures Field(present, key) == Field(node, key) {
    }
    SameFields(node, present);
    NullItems(items);
  }

  lemma SameFields(a: map<Key, Json>, b: map<Key, Json>)
    requires forall key :: Field(a, key) == Field(b, key)
    ensures FromObject(a) == FromObject(b)
  {
    assert forall key :: TextOf(a, key) == TextOf(b, key);
    assert forall key :: StringsOf(a, key) == StringsOf(b, key);
    assert FlagOf(a, ParallelizableKey) == FlagOf(b, ParallelizableKey);
  }

  lemma {:induction false} NullItems(items: seq<Json>)
    ensures Every(ItemText, items) == Every(ItemText, Map(OrEmpty, items))
  {
    if items != [] {
      NullItems(items[1..]);
      assert Map(OrEmpty, items)[1..] == Map(OrEmpty, items[1..]);
    }
  }

  /** Objects are read in their order, and nothing else is. */
  lemma {:induction false} OnlyObjectsRead(items: seq<Json>)
    requires ReadTasks(JArray(items)).Ok?
    ensures |ReadTasks(JArray(items)).value| == |Objects(items)|
    ensures forall i :: 0 <= i < |Objects(items)| ==>
      FromObject(Objects(items)[i]) == Ok(ReadTasks(JArray(items)).value[i])
  {
    if items != [] {
      OnlyObjectsRead(items[1..]);
    }
  }

  /** The objects among the items. */
  function Objects(items: seq<Json>): seq<map<Key, Json>> {
    if items == [] then []
    else (if items[0].JObject? then [items[0].fields] else []) + Objects(items[1..])
  }
}
