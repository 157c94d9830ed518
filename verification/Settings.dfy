/**
 Layered settings (settings.py): defaults, project files, the user file and the environment, read in
 that order, and patches that write one key among many that share a file and a section. The tables of
 keys, kinds and places are those of the source.
 */
module Settings {
  import opened Wrappers

  // --- the tables -----------------------------------------------------------------------------

  datatype Setting =
    | AutonomyMode | PlanningRequiresHuman | MaxParallelTasks | MaxRetriesPerTask | MaxFallbackAttempts
    | MaxTokensPerRun | MaxCostPerRun | IsolateMutatingTasks | WorktreeStrategy | CommandTimeout
    | CommandMaxTurns | McpEnabled | McpServers | LogLevel | ArtifactRetention | TranscriptRetention

  datatype Scope = User | Project

  datatype Kind = Choice | Boolean | Integer | Number | List

  datatype File = AutonomyPolicy | Orchestrator | Fallbacks | McpFile | SettingsFile

  /** The names of sections and fields the settings use, and any other. */
  datatype Name =
    | ProjectPolicy | Current | Execution | Isolate | Strategy | Quality | MaxAttempts | EnabledField
    | Field(setting: Setting)
    | Other(text: string)

  datatype Place = Place(file: File, section: Option<Name>, field: Name)

  function ScopeOf(key: Setting): Scope {
    match key
    case CommandTimeout => User
    case CommandMaxTurns => User
    case LogLevel => User
    case ArtifactRetention => User
    case TranscriptRetention => User
    case _ => Project
  }

  function KindOf(key: Setting): Kind {
    match key
    case AutonomyMode => Choice
    case WorktreeStrategy => Choice
    case LogLevel => Choice
    case PlanningRequiresHuman => Boolean
    case IsolateMutatingTasks => Boolean
    case McpEnabled => Boolean
    case MaxCostPerRun => Number
    case McpServers => List
    case _ => Integer
  }

  function PlaceOf(key: Setting): Place
    requires ScopeOf(key) == Project
  {
    match key
    case AutonomyMode => Place(AutonomyPolicy, Some(ProjectPolicy), Current)
    case IsolateMutatingTasks => Place(Orchestrator, Some(Execution), Isolate)
    case WorktreeStrategy => Place(Orchestrator, Some(Execution), Strategy)
    case MaxRetriesPerTask => Place(Fallbacks, Some(Quality), MaxAttempts)
    case McpEnabled => Place(McpFile, None, EnabledField)
    case _ => Place(SettingsFile, None, Field(key))
  }

  lemma PlacesAreDistinct(a: Setting, b: Setting)
    requires ScopeOf(a) == Project && ScopeOf(b) == Project
    ensures PlaceOf(a) == PlaceOf(b) <==> a == b
    ensures PlaceOf(a).file == PlaceOf(b).file ==> PlaceOf(a).section == PlaceOf(b).section
  {
  }

  // --- values and files ----------------------------------------------------------------------------

  datatype Value =
    | Null
    | Flag(flag: bool)
    | Whole(whole: int)
    | Decimal(decimal: real)
    | Text(text: string)
    | Sequence(items: seq<Value>)
    | Dict(fields: map<Name, Value>)

  type Data = map<Name, Value>

  /** What a file holds; one that is no mapping reads as empty, one that is no YAML does not read. */
  datatype Content = Absent | Broken | NotAMapping | Mapping(data: Data)

  function DataOf(content: Content): Data {
    if content.Mapping? then content.data else map[]
  }

  datatype SettingsError = Unreadable | BadVariable | WrongScope | ControlledByEnvironment | BadValue | MalformedFile

  function Get(data: Data, place: Place): Option<Value> {
    match place.section
    case None => if place.field in data then Some(data[place.field]) else None
    case Some(section) =>
      if section in data && data[section].Dict? && place.field in data[section].fields then
        Some(data[section].fields[place.field])
      else None
  }

  /** A section that is there but is no mapping cannot be written into. */
  predicate CanPut(data: Data, place: Place) {
    place.section.Some? && place.section.value in data ==> data[place.section.value].Dict?
  }

  function SectionOf(data: Data, section: Name): map<Name, Value> {
    if section in data && data[section].Dict? then data[section].fields else map[]
  }

  function Put(data: Data, place: Place, value: Value): Data {
    match place.section
    case None => data[place.field := value]
    case Some(section) => data[section := Dict(SectionOf(data, section)[place.field := value])]
  }

  function Drop(data: Data, place: Place): Data {
    match place.section
    case None => data - {place.field}
    case Some(section) =>
      if section in data && data[section].Dict? then data[section := Dict(data[section].fields - {place.field})]
      else data
  }

  // --- the layers --------------------------------------------------------------------------------------

  datatype Source = Default | ProjectLayer | UserLayer | Environment

  datatype View = View(value: Value, source: Source)

  /** All there is to read; a variable may not convert to the kind of its setting. */
  datatype World = World(files: map<File, Content>, user: Content, environment: map<Setting, Option<Value>>)

  ghost predicate Complete(w: World) {
    forall file: File :: file in w.files
  }

  function UserName(key: Setting): Name {
    Field(key)
  }

  function Override(w: World, key: Setting): Option<Value>
    requires forall file: File :: file in w.files
  {
    if ScopeOf(key) == Project then Get(DataOf(w.files[PlaceOf(key).file]), PlaceOf(key)) else None
  }

  function UserValue(w: World, key: Setting): Option<Value> {
    if UserName(key) in DataOf(w.user) then Some(DataOf(w.user)[UserName(key)]) else None
  }

  function Variable(w: World, key: Setting): Option<Value> {
    if key in w.environment then w.environment[key] else None
  }

  /** The highest layer that says anything wins. */
  function Layered(variable: Option<Value>, user: Option<Value>, project: Option<Value>, default: Value): View {
    if variable.Some? then View(variable.value, Environment)
    else if user.Some? then View(user.value, UserLayer)
    else if project.Some? then View(project.value, ProjectLayer)
    else View(default, Default)
  }

  function ViewOf(w: World, key: Setting, default: Value): View
    requires forall file: File :: file in w.files
  {
    Layered(Variable(w, key), UserValue(w, key), Override(w, key), default)
  }

  /** A variable that converts is in force, in every world with this environment, whatever the files hold. */
  lemma VariablesWin(w: World, other: World, key: Setting, default: Value)
    requires Complete(w) && Complete(other) && w.environment == other.environment
    requires key in w.environment && w.environment[key].Some?
    ensures ViewOf(w, key, default) == View(w.environment[key].value, Environment) == ViewOf(other, key, default)
  {
  }

  /** Without one, what the user file says is in force, whatever the project files hold. */
  lemma UserIsNext(w: World, other: World, key: Setting, default: Value)
    requires Complete(w) && Complete(other) && w.user == other.user
    requires key !in w.environment && key !in other.environment
    requires w.user.Mapping? && Field(key) in w.user.data
    ensures ViewOf(w, key, default) == View(w.user.data[Field(key)], UserLayer) == ViewOf(other, key, default)
  {
  }

  /** Then what the project's own file says at the setting's place; and the default only if nothing does. */
  lemma ProjectIsLast(w: World, key: Setting, default: Value)
    requires Complete(w) && key !in w.environment && (w.user.Mapping? ==> Field(key) !in w.user.data)
    ensures ViewOf(w, key, default) ==
      if ScopeOf(key) == Project && Says(w.files[PlaceOf(key).file], PlaceOf(key))
      then View(Said(w.files[PlaceOf(key).file], PlaceOf(key)), ProjectLayer) else View(default, Default)
  {
  }

  /** The file is a mapping with this field, or with the section as a mapping that has it. */
  predicate Says(content: Content, place: Place) {
    content.Mapping? && place.field in FieldsAt(content.data, place.section)
  }

  function Said(content: Content, place: Place): Value
    requires Says(content, place)
  {
    FieldsAt(content.data, place.section)[place.field]
  }

  function FieldsAt(data: Data, section: Option<Name>): map<Name, Value> {
    if section.None? then data else SectionOf(data, section.value)
  }

  predicate Readable(w: World) {
    && !w.user.Broken? && (forall file :: file in w.files ==> !w.files[file].Broken?)
    && forall key :: key in w.environment ==> w.environment[key].Some?
  }

  predicate Valid(key: Setting, value: Value) {
    match KindOf(key)
    case Boolean => value.Flag?
    case Integer => value.Whole? && value.whole >= 0
    case Number => (value.Whole? && value.whole >= 0) || (value.Decimal? && value.decimal >= 0.0)
    case List => value.Sequence?
    case Choice => value.Text?
  }

  /** Which settings take a value, told by the value: negative numbers, null and mappings fit none. */
  lemma ValidByValue(key: Setting, value: Value)
    ensures Valid(key, value) <==>
      match value
      case Flag(_) => KindOf(key) == Boolean
      case Whole(n) => n >= 0 && KindOf(key) in {Integer, Number}
      case Decimal(d) => d >= 0.0 && KindOf(key) == Number
      case Text(_) => KindOf(key) == Choice
      case Sequence(_) => KindOf(key) == List
      case _ => false
  {
  }

  /** The value a setting has when nothing else is said. */
  function DefaultOf(key: Setting): Value {
    match key
    case AutonomyMode => Text("agentic")
    case PlanningRequiresHuman => Flag(true)
    case MaxParallelTasks => Whole(4)
    case MaxRetriesPerTask => Whole(3)
    case MaxFallbackAttempts => Whole(2)
    case MaxTokensPerRun => Whole(1_000_000)
    case MaxCostPerRun => Decimal(10.0)
    case IsolateMutatingTasks => Flag(true)
    case WorktreeStrategy => Text("per-task")
    case CommandTimeout => Whole(600)
    case CommandMaxTurns => Whole(50)
    case McpEnabled => Flag(false)
    case McpServers => Sequence([])
    case LogLevel => Text("INFO")
    case ArtifactRetention => Whole(30)
    case TranscriptRetention => Whole(90)
  }

  /** Every default may be written back, and only the cost ceiling takes a fraction. */
  lemma DefaultsAreValid(key: Setting)
    ensures Valid(key, DefaultOf(key))
    ensures Valid(key, Decimal(0.5)) <==> key == MaxCostPerRun
  {
  }

  /** The entries of a dictionary, in its order. */
  type Patch = seq<(Setting, Value)>

  ghost predicate Distinct(patch: Patch) {
    forall i, j :: 0 <= i < j < |patch| ==> patch[i].0 != patch[j].0
  }

  predicate InScope(patch: Patch, scope: Scope) {
    forall i :: 0 <= i < |patch| ==> ScopeOf(patch[i].0) == scope
  }

  predicate Writable(w: World, patch: Patch, i: nat)
    requires i < |patch| && forall file: File :: file in w.files
  {
    ScopeOf(patch[i].0) == Project ==> CanPut(DataOf(w.files[PlaceOf(patch[i].0).file]), PlaceOf(patch[i].0))
  }

  /** Exactly the patches that are written. */
  ghost predicate Accepts(w: World, patch: Patch, scope: Scope)
    requires forall file: File :: file in w.files
  {
    && Readable(w) && InScope(patch, scope)
    && (forall i :: 0 <= i < |patch| ==> patch[i].0 !in w.environment && Valid(patch[i].0, patch[i].1))
    && (forall i :: 0 <= i < |patch| ==> Writable(w, patch, i))
  }

  /** One file with the entries of the patch that belong there. */
  ghost function Patched(data: Data, file: File, patch: Patch): Data
    requires InScope(patch, Project)
  {
    if patch == [] then data
    else
      var init, last := patch[..|patch| - 1], patch[|patch| - 1];
      if PlaceOf(last.0).file == file then Put(Patched(data, file, init), PlaceOf(last.0), last.1)
      else Patched(data, file, init)
  }

  ghost predicate Touches(patch: Patch, file: File)
    requires InScope(patch, Project)
  {
    exists i :: 0 <= i < |patch| && PlaceOf(patch[i].0).file == file
  }

  ghost function UserPatched(data: Data, patch: Patch): Data {
    if patch == [] then data
    else UserPatched(data, patch[..|patch| - 1])[UserName(patch[|patch| - 1].0) := patch[|patch| - 1].1]
  }

  /** The world once the patch is written. */
  ghost function Applied(w: World, patch: Patch, scope: Scope): World
    requires (forall file: File :: file in w.files) && InScope(patch, scope)
  {
    if patch == [] then w
    else if scope == User then w.(user := Mapping(UserPatched(DataOf(w.user), patch)))
    else
      w.(files := map file: File | file in w.files ::
           if Touches(patch, file) then Mapping(Patched(DataOf(w.files[file]), file, patch)) else w.files[file])
  }

  // --- one place among others ---------------------------------------------------------------------

  lemma PutGet(data: Data, place: Place, value: Value)
    ensures Get(Put(data, place, value), place) == Some(value)
    ensures CanPut(Put(data, place, value), place)
  {
  }

  lemma PutElsewhere(data: Data, place: Place, value: Value, other: Place)
    requires CanPut(data, place) && place != other && place.file == other.file && place.section == other.section
    ensures Get(Put(data, place, value), other) == Get(data, other)
    ensures CanPut(data, other) ==> CanPut(Put(data, place, value), other)
  {
  }

  lemma DropGet(data: Data, place: Place)
    ensures Get(Drop(data, place), place) == None
  {
  }

  lemma DropElsewhere(data: Data, place: Place, other: Place)
    requires place != other && place.file == other.file && place.section == other.section
    ensures Get(Drop(data, place), other) == Get(data, other)
  {
  }

  /** The entry of the patch for a key, if it has one. */
  ghost predicate At(patch: Patch, key: Setting, i: nat) {
    i < |patch| && patch[i].0 == key
  }

  ghost predicate Without(patch: Patch, key: Setting) {
    forall i :: 0 <= i < |patch| ==> patch[i].0 != key
  }

  ghost predicate CanPutAll(data: Data, file: File, patch: Patch)
    requires InScope(patch, Project)
  {
    forall i :: 0 <= i < |patch| && PlaceOf(patch[i].0).file == file ==> CanPut(data, PlaceOf(patch[i].0))
  }

  lemma {:induction false} PatchedCanPut(data: Data, file: File, patch: Patch, key: Setting)
    requires InScope(patch, Project) && CanPutAll(data, file, patch)
    requires ScopeOf(key) == Project && PlaceOf(key).file == file && CanPut(data, PlaceOf(key))
    ensures CanPut(Patched(data, file, patch), PlaceOf(key))
  {
    if patch != [] {
      var init, last := patch[..|patch| - 1], patch[|patch| - 1];
      PatchedCanPut(data, file, init, key);
      if PlaceOf(last.0).file == file {
        PatchedCanPut(data, file, init, last.0);
        PlacesAreDistinct(last.0, key);
        if last.0 == key {
          PutGet(Patched(data, file, init), PlaceOf(key), last.1);
        } else {
          PutElsewhere(Patched(data, file, init), PlaceOf(last.0), last.1, PlaceOf(key));
        }
      }
    }
  }

  /** Every patched key reads back, and every other key reads as before, though they share a section. */
  lemma {:induction false} PatchedGet(data: Data, file: File, patch: Patch, key: Setting)
    requires InScope(patch, Project) && CanPutAll(data, file, patch) && Distinct(patch)
    requires ScopeOf(key) == Project && PlaceOf(key).file == file
    ensures Without(patch, key) ==> Get(Patched(data, file, patch), PlaceOf(key)) == Get(data, PlaceOf(key))
    ensures forall i: nat :: At(patch, key, i) ==> Get(Patched(data, file, patch), PlaceOf(key)) == Some(patch[i].1)
  {
    if patch != [] {
      var init, last := patch[..|patch| - 1], patch[|patch| - 1];
      PatchedGet(data, file, init, key);
      assert forall i: nat :: At(patch, key, i) && i < |init| ==> At(init, key, i);
      if PlaceOf(last.0).file == file {
        PatchedCanPut(data, file, init, last.0);
        PutOne(Patched(data, file, init), last.0, last.1, key);
      }
    }
  }

  /** One key is put, and another one of the same file read. */
  lemma PutOne(data: Data, put: Setting, value: Value, key: Setting)
    requires ScopeOf(put) == Project && ScopeOf(key) == Project && PlaceOf(put).file == PlaceOf(key).file
    requires CanPut(data, PlaceOf(put))
    ensures Get(Put(data, PlaceOf(put), value), PlaceOf(key)) ==
            if put == key then Some(value) else Get(data, PlaceOf(key))
  {
    PlacesAreDistinct(put, key);
    if put == key {
      PutGet(data, PlaceOf(key), value);
    } else {
      PutElsewhere(data, PlaceOf(put), value, PlaceOf(key));
    }
  }

  /** An entry of the patch goes to this place. */
  ghost predicate Aims(patch: Patch, place: Place)
    requires InScope(patch, Project)
  {
    exists i :: 0 <= i < |patch| && PlaceOf(patch[i].0) == place
  }

  ghost predicate KeepsRest(before: Data, after: Data, patch: Patch, file: File, name: Name)
    requires InScope(patch, Project)
  {
    name in before && !Aims(patch, Place(file, None, name)) ==>
      name in after && KeepsValue(before[name], after[name], patch, file, name)
  }

  /** A section keeps every field the patch does not aim at, and anything else stays as it is. */
  ghost predicate KeepsValue(before: Value, after: Value, patch: Patch, file: File, section: Name)
    requires InScope(patch, Project)
  {
    if !before.Dict? then after == before
    else
      && after.Dict?
      && forall field :: field in before.fields && !Aims(patch, Place(file, Some(section), field)) ==>
        field in after.fields && after.fields[field] == before.fields[field]
  }

  /** What a patch does not name stays in the file, a malformed section included. */
  lemma {:induction false} PatchedKeepsRest(data: Data, file: File, patch: Patch, name: Name)
    requires InScope(patch, Project) && CanPutAll(data, file, patch)
    ensures KeepsRest(data, Patched(data, file, patch), patch, file, name)
  {
    if patch != [] {
      var init, last := patch[..|patch| - 1], patch[|patch| - 1];
      assert patch == init + [last];
      PatchedKeepsRest(data, file, init, name);
      AimsFurther(init, last);
      if PlaceOf(last.0).file == file {
        PatchedCanPut(data, file, init, last.0);
        assert patch[|patch| - 1] == last;
        assert Aims(patch, PlaceOf(last.0));
        PutKeepsRest(data, Patched(data, file, init), init, patch, file, last, name);
      }
    }
  }

  lemma AimsFurther(init: Patch, last: (Setting, Value))
    requires InScope(init, Project) && ScopeOf(last.0) == Project && InScope(init + [last], Project)
    ensures forall place :: Aims(init, place) ==> Aims(init + [last], place)
  {
    forall place | Aims(init, place) ensures Aims(init + [last], place) {
      var i :| 0 <= i < |init| && PlaceOf(init[i].0) == place;
      assert (init + [last])[i] == init[i];
    }
  }

  lemma PutKeepsRest(data: Data, before: Data, init: Patch, patch: Patch, file: File, last: (Setting, Value),
                     name: Name)
    requires InScope(init, Project) && InScope(patch, Project) && ScopeOf(last.0) == Project
    requires PlaceOf(last.0).file == file && CanPut(before, PlaceOf(last.0)) && Aims(patch, PlaceOf(last.0))
    requires KeepsRest(data, before, init, file, name)
    requires forall place :: Aims(init, place) ==> Aims(patch, place)
    ensures KeepsRest(data, Put(before, PlaceOf(last.0), last.1), patch, file, name)
  {
  }

  lemma {:induction false} UserPatchedGet(data: Data, patch: Patch, key: Setting)
    requires Distinct(patch)
    ensures Without(patch, key) ==>
      (UserName(key) in UserPatched(data, patch) <==> UserName(key) in data) &&
      (UserName(key) in data ==> UserPatched(data, patch)[UserName(key)] == data[UserName(key)])
    ensures forall i: nat :: At(patch, key, i) ==>
      UserName(key) in UserPatched(data, patch) && UserPatched(data, patch)[UserName(key)] == patch[i].1
  {
    if patch != [] {
      var init := patch[..|patch| - 1];
      UserPatchedGet(data, init, key);
      assert forall i: nat :: At(patch, key, i) && i < |init| ==> At(init, key, i);
    }
  }

  lemma WritableMeansCanPut(w: World, patch: Patch, file: File)
    requires Complete(w) && Accepts(w, patch, Project)
    ensures CanPutAll(DataOf(w.files[file]), file, patch)
  {
    forall i | 0 <= i < |patch| && PlaceOf(patch[i].0).file == file
      ensures CanPut(DataOf(w.files[file]), PlaceOf(patch[i].0))
    {
      assert Writable(w, patch, i);
    }
  }

  lemma AppliedOverride(w: World, patch: Patch, scope: Scope, key: Setting)
    requires Complete(w) && Accepts(w, patch, scope) && Distinct(patch)
    ensures Without(patch, key) || scope == User ==> Override(Applied(w, patch, scope), key) == Override(w, key)
    ensures scope == Project ==>
      forall i: nat :: At(patch, key, i) ==> Override(Applied(w, patch, scope), key) == Some(patch[i].1)
  {
    if scope == Project && ScopeOf(key) == Project && patch != [] {
      var file := PlaceOf(key).file;
      WritableMeansCanPut(w, patch, file);
      PatchedGet(DataOf(w.files[file]), file, patch, key);
      forall i: nat | At(patch, key, i) ensures Touches(patch, file) {
        assert PlaceOf(patch[i].0).file == file;
      }
    }
  }

  /**
   Put and get. A patched key that no higher layer shadows reads back with its value, from its own
   layer; a key that was not patched reads as before, whatever it shares a file or a section with.
   */
  lemma AppliedReadsBack(w: World, patch: Patch, scope: Scope, key: Setting, default: Value)
    requires Complete(w) && Accepts(w, patch, scope) && Distinct(patch)
    ensures Without(patch, key) ==> ViewOf(Applied(w, patch, scope), key, default) == ViewOf(w, key, default)
    ensures forall i: nat :: At(patch, key, i) && (scope == User || UserValue(w, key).None?) ==>
      ViewOf(Applied(w, patch, scope), key, default) ==
      View(patch[i].1, if scope == User then UserLayer else ProjectLayer)
    ensures forall i: nat :: At(patch, key, i) && scope == Project && UserValue(w, key).Some? ==>
      ViewOf(Applied(w, patch, scope), key, default) == ViewOf(w, key, default)
  {
    AppliedOverride(w, patch, scope, key);
    AppliedUser(w, patch, scope, key);
    AppliedEnvironment(w, patch, scope, key);
  }

  lemma AppliedUser(w: World, patch: Patch, scope: Scope, key: Setting)
    requires Complete(w) && Accepts(w, patch, scope) && Distinct(patch)
    ensures Without(patch, key) || scope == Project ==> UserValue(Applied(w, patch, scope), key) == UserValue(w, key)
    ensures scope == User ==>
      forall i: nat :: At(patch, key, i) ==> UserValue(Applied(w, patch, scope), key) == Some(patch[i].1)
  {
    UserPatchedGet(DataOf(w.user), patch, key);
  }

  lemma AppliedEnvironment(w: World, patch: Patch, scope: Scope, key: Setting)
    requires Complete(w) && Accepts(w, patch, scope)
    ensures Variable(Applied(w, patch, scope), key) == Variable(w, key)
    ensures forall i: nat :: At(patch, key, i) ==> Variable(w, key).None?
  {
  }

  // --- resetting ------------------------------------------------------------------------------------

  ghost predicate AllIn(keys: seq<Setting>, scope: Scope) {
    forall i :: 0 <= i < |keys| ==> ScopeOf(keys[i]) == scope
  }

  ghost predicate Named(keys: seq<Setting>, file: File)
    requires AllIn(keys, Project)
  {
    exists i :: 0 <= i < |keys| && PlaceOf(keys[i]).file == file
  }

  ghost function Dropped(data: Data, file: File, keys: seq<Setting>): Data
    requires AllIn(keys, Project)
  {
    if keys == [] then data
    else
      var init, last := keys[..|keys| - 1], keys[|keys| - 1];
      if PlaceOf(last).file == file then Drop(Dropped(data, file, init), PlaceOf(last)) else Dropped(data, file, init)
  }

  ghost function UserDropped(data: Data, keys: seq<Setting>): Data {
    map name | name in data && (forall i :: 0 <= i < |keys| ==> UserName(keys[i]) != name) :: data[name]
  }

  ghost function WithReset(w: World, keys: seq<Setting>, scope: Scope): World
    requires (forall file: File :: file in w.files) && AllIn(keys, scope)
  {
    if scope == User then w.(user := Mapping(UserDropped(DataOf(w.user), keys)))
    else
      w.(files := map file: File | file in w.files ::
           if Named(keys, file) then Mapping(Dropped(DataOf(w.files[file]), file, keys)) else w.files[file])
  }

  lemma {:induction false} DroppedGet(data: Data, file: File, keys: seq<Setting>, key: Setting)
    requires AllIn(keys, Project) && ScopeOf(key) == Project && PlaceOf(key).file == file
    ensures Get(Dropped(data, file, keys), PlaceOf(key)) == if key in keys then None else Get(data, PlaceOf(key))
  {
    if keys != [] {
      var init, last := keys[..|keys| - 1], keys[|keys| - 1];
      DroppedGet(data, file, init, key);
      assert keys == init + [last];
      if PlaceOf(last).file == file {
        PlacesAreDistinct(last, key);
        if last == key {
          DropGet(Dropped(data, file, init), PlaceOf(key));
        } else {
          DropElsewhere(Dropped(data, file, init), PlaceOf(last), PlaceOf(key));
        }
      }
    }
  }

  lemma ResetOverride(w: World, keys: seq<Setting>, scope: Scope, key: Setting)
    requires Complete(w) && AllIn(keys, scope)
    ensures Override(WithReset(w, keys, scope), key) ==
            if scope == Project && key in keys then None else Override(w, key)
  {
    if scope == Project && ScopeOf(key) == Project {
      var file := PlaceOf(key).file;
      DroppedGet(DataOf(w.files[file]), file, keys, key);
      if key in keys {
        var i :| 0 <= i < |keys| && keys[i] == key;
        assert Named(keys, file);
      }
    }
  }

  /** What a layer leaves visible when it says nothing of the key. */
  ghost function Below(w: World, key: Setting, default: Value, scope: Scope): View
    requires forall file: File :: file in w.files
  {
    if scope == User then Layered(Variable(w, key), None, Override(w, key), default)
    else Layered(Variable(w, key), UserValue(w, key), None, default)
  }

  /** A reset reveals exactly what the other layers hold, and changes no other key. */
  lemma ResetReveals(w: World, keys: seq<Setting>, scope: Scope, key: Setting, default: Value)
    requires Complete(w) && AllIn(keys, scope)
    ensures ViewOf(WithReset(w, keys, scope), key, default) ==
            if key in keys then Below(w, key, default, scope) else ViewOf(w, key, default)
  {
    ResetOverride(w, keys, scope, key);
    ResetUser(w, keys, scope, key);
  }

  lemma ResetUser(w: World, keys: seq<Setting>, scope: Scope, key: Setting)
    requires Complete(w) && AllIn(keys, scope)
    ensures UserValue(WithReset(w, keys, scope), key) ==
            if scope == User && key in keys then None else UserValue(w, key)
    ensures Variable(WithReset(w, keys, scope), key) == Variable(w, key)
  {
    if key in keys {
      var i :| 0 <= i < |keys| && keys[i] == key;
    }
  }

  /** Resetting what was patched gives every view back, if the layer said nothing of those keys before. */
  lemma ResetUndoes(w: World, patch: Patch, keys: seq<Setting>, scope: Scope, key: Setting, default: Value)
    requires Complete(w) && Accepts(w, patch, scope) && Distinct(patch)
    requires |keys| == |patch| && forall i :: 0 <= i < |patch| ==> keys[i] == patch[i].0
    requires forall i :: 0 <= i < |patch| ==>
      if scope == User then UserValue(w, keys[i]).None? else Override(w, keys[i]).None?
    ensures ViewOf(WithReset(Applied(w, patch, scope), keys, scope), key, default) == ViewOf(w, key, default)
  {
    var applied := Applied(w, patch, scope);
    ResetReveals(applied, keys, scope, key, default);
    AppliedReadsBack(w, patch, scope, key, default);
    AppliedOverride(w, patch, scope, key);
    AppliedUser(w, patch, scope, key);
    AppliedEnvironment(w, patch, scope, key);
    if key in keys {
      var i :| 0 <= i < |keys| && keys[i] == key;
      assert patch[i].0 == key;
    }
  }

  // --- the store ----------------------------------------------------------------------------------------

  const AllSettings: seq<Setting> := [
    AutonomyMode, PlanningRequiresHuman, MaxParallelTasks, MaxRetriesPerTask, MaxFallbackAttempts,
    MaxTokensPerRun, MaxCostPerRun, IsolateMutatingTasks, WorktreeStrategy, CommandTimeout,
    CommandMaxTurns, McpEnabled, McpServers, LogLevel, ArtifactRetention, TranscriptRetention]

  const AllFiles: seq<File> := [AutonomyPolicy, Orchestrator, Fallbacks, McpFile, SettingsFile]

  lemma EverySetting(key: Setting)
    ensures key in AllSettings
  {
    match key
    case AutonomyMode => assert AllSettings[0] == key;
    case PlanningRequiresHuman => assert AllSettings[1] == key;
    case MaxParallelTasks => assert AllSettings[2] == key;
    case MaxRetriesPerTask => assert AllSettings[3] == key;
    case MaxFallbackAttempts => assert AllSettings[4] == key;
    case MaxTokensPerRun => assert AllSettings[5] == key;
    case MaxCostPerRun => assert AllSettings[6] == key;
    case IsolateMutatingTasks => assert AllSettings[7] == key;
    case WorktreeStrategy => assert AllSettings[8] == key;
    case CommandTimeout => assert AllSettings[9] == key;
    case CommandMaxTurns => assert AllSettings[10] == key;
    case McpEnabled => assert AllSettings[11] == key;
    case McpServers => assert AllSettings[12] == key;
    case LogLevel => assert AllSettings[13] == key;
    case ArtifactRetention => assert AllSettings[14] == key;
    case TranscriptRetention => assert AllSettings[15] == key;
  }

  lemma EveryFile(file: File)
    ensures file in AllFiles
  {
    match file
    case AutonomyPolicy => assert AllFiles[0] == file;
    case Orchestrator => assert AllFiles[1] == file;
    case Fallbacks => assert AllFiles[2] == file;
    case McpFile => assert AllFiles[3] == file;
    case SettingsFile => assert AllFiles[4] == file;
  }

  /** The files a patch has touched so far, each as patched so far, and no other. */
  ghost predicate GroupedSoFar(grouped: map<File, Data>, w: World, patch: Patch)
    requires (forall file: File :: file in w.files) && InScope(patch, Project)
  {
    && (forall file :: file in grouped <==> Touches(patch, file))
    && (forall file :: file in grouped ==> grouped[file] == Patched(DataOf(w.files[file]), file, patch))
  }

  lemma {:induction false} PatchedUntouched(data: Data, file: File, patch: Patch)
    requires InScope(patch, Project) && !Touches(patch, file)
    ensures Patched(data, file, patch) == data
  {
    if patch != [] {
      var init := patch[..|patch| - 1];
      assert forall i :: 0 <= i < |init| ==> init[i] == patch[i];
      PatchedUntouched(data, file, init);
    }
  }

  /** What has been grouped for a file can take an entry exactly when the file itself could. */
  lemma StillWritable(w: World, patch: Patch, i: nat, data: Data, grouped: map<File, Data>)
    requires Complete(w) && InScope(patch, Project) && i < |patch|
    requires forall k :: 0 <= k < i ==> Writable(w, patch, k)
    requires GroupedSoFar(grouped, w, patch[..i])
    requires var file := PlaceOf(patch[i].0).file;
      data == if file in grouped then grouped[file] else DataOf(w.files[file])
    ensures var file := PlaceOf(patch[i].0).file; data == Patched(DataOf(w.files[file]), file, patch[..i])
    ensures CanPut(data, PlaceOf(patch[i].0)) <==> Writable(w, patch, i)
  {
    var key, file, init := patch[i].0, PlaceOf(patch[i].0).file, patch[..i];
    if Touches(init, file) {
      var k :| 0 <= k < |init| && PlaceOf(init[k].0).file == file;
      assert Writable(w, patch, k) && init[k] == patch[k];
      PlacesAreDistinct(patch[k].0, key);
      forall m | 0 <= m < |init| && PlaceOf(init[m].0).file == file
        ensures CanPut(DataOf(w.files[file]), PlaceOf(init[m].0))
      {
        assert Writable(w, patch, m) && init[m] == patch[m];
      }
      PatchedCanPut(DataOf(w.files[file]), file, init, key);
    } else {
      PatchedUntouched(DataOf(w.files[file]), file, init);
    }
  }

  lemma GroupOne(grouped: map<File, Data>, w: World, patch: Patch, i: nat, data: Data)
    requires Complete(w) && InScope(patch, Project) && i < |patch| && GroupedSoFar(grouped, w, patch[..i])
    requires var file := PlaceOf(patch[i].0).file; data == Patched(DataOf(w.files[file]), file, patch[..i])
    ensures var place := PlaceOf(patch[i].0);
      GroupedSoFar(grouped[place.file := Put(data, place, patch[i].1)], w, patch[..i + 1])
  {
    var place := PlaceOf(patch[i].0);
    var next := grouped[place.file := Put(data, place, patch[i].1)];
    forall file ensures file in next <==> Touches(patch[..i + 1], file) {
      TouchesOneMore(patch, i, file);
    }
    forall file | file in next ensures next[file] == Patched(DataOf(w.files[file]), file, patch[..i + 1]) {
      PatchedOneMore(DataOf(w.files[file]), file, patch, i);
    }
  }

  lemma PatchedOneMore(data: Data, file: File, patch: Patch, i: nat)
    requires InScope(patch, Project) && i < |patch|
    ensures Patched(data, file, patch[..i + 1]) ==
      if PlaceOf(patch[i].0).file == file then Put(Patched(data, file, patch[..i]), PlaceOf(patch[i].0), patch[i].1)
      else Patched(data, file, patch[..i])
  {
    assert patch[..i + 1][..i] == patch[..i] && patch[..i + 1][i] == patch[i];
  }

  lemma TouchesOneMore(patch: Patch, i: nat, file: File)
    requires InScope(patch, Project) && i < |patch|
    ensures Touches(patch[..i + 1], file) <==> Touches(patch[..i], file) || file == PlaceOf(patch[i].0).file
  {
    var init, longer := patch[..i], patch[..i + 1];
    if k :| 0 <= k < |init| && PlaceOf(init[k].0).file == file {
      assert longer[k] == init[k];
    }
    if k :| 0 <= k < |longer| && PlaceOf(longer[k].0).file == file {
      assert k == i || longer[k] == init[k];
    }
    assert longer[i] == patch[i];
  }

  lemma WrittenAsApplied(before: World, after: World, patch: Patch, grouped: map<File, Data>)
    requires Complete(before) && InScope(patch, Project) && patch != [] && GroupedSoFar(grouped, before, patch)
    requires after == before.(files := after.files) && after.files.Keys == before.files.Keys
    requires forall file :: file in before.files ==>
      after.files[file] == if file in grouped then Mapping(grouped[file]) else before.files[file]
    ensures after == Applied(before, patch, Project)
  {
  }

  lemma StaysReadable(w: World, patch: Patch, scope: Scope)
    requires Complete(w) && Accepts(w, patch, scope)
    ensures Complete(Applied(w, patch, scope)) && Readable(Applied(w, patch, scope))
  {
  }

  /** The files on disk, and the environment of the process. */
  class Store {
    var files: map<File, Content>
    var user: Content
    const environment: map<Setting, Option<Value>>

    function Contents(): World
      reads this
    {
      World(files, user, environment)
    }

    ghost predicate Ready()
      reads this
    {
      Complete(Contents())
    }

    constructor (w: World)
      ensures Contents() == w
    {
      files, user, environment := w.files, w.user, w.environment;
    }

    method CheckReadable() returns (readable: bool)
      requires Ready()
      ensures readable <==> Readable(Contents())
    {
      if user.Broken? {
        return false;
      }
      for i := 0 to |AllFiles|
        invariant forall k :: 0 <= k < i ==> !files[AllFiles[k]].Broken?
      {
        if files[AllFiles[i]].Broken? {
          return false;
        }
      }
      for i := 0 to |AllSettings|
        invariant forall k :: 0 <= k < i && AllSettings[k] in environment ==> environment[AllSettings[k]].Some?
      {
        if AllSettings[i] in environment && environment[AllSettings[i]].None? {
          return false;
        }
      }
      forall file: File ensures !files[file].Broken? { EveryFile(file); }
      forall key: Setting | key in environment ensures environment[key].Some? { EverySetting(key); }
      return true;
    }

    /** Every setting as the layers show it; fails when any file or variable cannot be read. */
    method Load(defaults: map<Setting, Value>) returns (r: Result<map<Setting, View>, SettingsError>)
      requires Ready() && forall key: Setting :: key in defaults
      ensures r.Ok? <==> Readable(Contents())
      ensures r.Ok? ==> forall key: Setting :: key in r.value && r.value[key] == ViewOf(Contents(), key, defaults[key])
    {
      var readable := CheckReadable();
      if !readable {
        return Err(Unreadable);
      }
      var views: map<Setting, View> := map[];
      for i := 0 to |AllSettings|
        invariant forall k :: 0 <= k < i ==> AllSettings[k] in views
        invariant forall key :: key in views ==> views[key] == ViewOf(Contents(), key, defaults[key])
      {
        views := views[AllSettings[i] := ViewOf(Contents(), AllSettings[i], defaults[AllSettings[i]])];
      }
      forall key: Setting ensures key in views { EverySetting(key); }
      return Ok(views);
    }

    /** Writes a patch as a whole, and writes nothing that is not accepted as a whole. */
    method Apply(patch: Patch, scope: Scope, defaults: map<Setting, Value>)
      returns (r: Result<map<Setting, View>, SettingsError>)
      requires Ready() && Distinct(patch) && forall key: Setting :: key in defaults
      modifies this
      ensures Ready()
      ensures r.Ok? ==> Accepts(old(Contents()), patch, scope) && Contents() == Applied(old(Contents()), patch, scope)
      ensures r.Err? ==> Contents() == old(Contents()) && (patch != [] ==> !Accepts(old(Contents()), patch, scope))
      ensures r.Ok? ==> forall key: Setting :: key in r.value && r.value[key] == ViewOf(Contents(), key, defaults[key])
    {
      var current :- Load(defaults);
      if |patch| == 0 {
        return Ok(current);
      }
      var checked := Check(patch, scope);
      if checked.Err? {
        return Err(checked.error);
      }
      if scope == User {
        UpdateUser(patch);
      } else {
        var written := ApplyProjectPatch(patch);
        if written.Err? {
          return Err(written.error);
        }
      }
      StaysReadable(old(Contents()), patch, scope);
      r := Load(defaults);
    }

    method Check(patch: Patch, scope: Scope) returns (r: Result<(), SettingsError>)
      ensures r.Ok? <==>
        && InScope(patch, scope)
        && forall i :: 0 <= i < |patch| ==> patch[i].0 !in environment && Valid(patch[i].0, patch[i].1)
    {
      for i := 0 to |patch|
        invariant forall k :: 0 <= k < i ==> ScopeOf(patch[k].0) == scope
      {
        if ScopeOf(patch[i].0) != scope {
          return Err(WrongScope);
        }
      }
      for i := 0 to |patch|
        invariant forall k :: 0 <= k < i ==> patch[k].0 !in environment && Valid(patch[k].0, patch[k].1)
      {
        if patch[i].0 in environment {
          return Err(ControlledByEnvironment);
        }
        if !Valid(patch[i].0, patch[i].1) {
          return Err(BadValue);
        }
      }
      return Ok(());
    }

    method UpdateUser(patch: Patch)
      requires Ready()
      modifies this
      ensures user == Mapping(UserPatched(DataOf(old(user)), patch)) && files == old(files)
    {
      var data := DataOf(user);
      for i := 0 to |patch|
        invariant data == UserPatched(DataOf(old(user)), patch[..i]) && user == old(user) && files == old(files)
      {
        assert patch[..i + 1][..i] == patch[..i];
        data := data[UserName(patch[i].0) := patch[i].1];
      }
      assert patch[..|patch|] == patch;
      user := Mapping(data);
    }

    method Group(patch: Patch, i: nat, grouped: map<File, Data>) returns (r: Result<map<File, Data>, SettingsError>)
      requires Ready() && InScope(patch, Project) && i < |patch|
      requires forall k :: 0 <= k < i ==> Writable(Contents(), patch, k)
      requires GroupedSoFar(grouped, Contents(), patch[..i])
      ensures r.Ok? <==> Writable(Contents(), patch, i)
      ensures r.Ok? ==> GroupedSoFar(r.value, Contents(), patch[..i + 1])
    {
      var place := PlaceOf(patch[i].0);
      var data := if place.file in grouped then grouped[place.file] else DataOf(files[place.file]);
      StillWritable(Contents(), patch, i, data, grouped);
      if !CanPut(data, place) {
        return Err(MalformedFile);
      }
      GroupOne(grouped, Contents(), patch, i, data);
      return Ok(grouped[place.file := Put(data, place, patch[i].1)]);
    }

    /** Groups the entries by file, patches each file in memory, and only then writes any of them. */
    method ApplyProjectPatch(patch: Patch) returns (r: Result<(), SettingsError>)
      requires Ready() && InScope(patch, Project)
      modifies this
      ensures user == old(user)
      ensures r.Ok? <==> forall i :: 0 <= i < |patch| ==> Writable(old(Contents()), patch, i)
      ensures r.Ok? && patch != [] ==> Contents() == Applied(old(Contents()), patch, Project)
      ensures r.Err? ==> Contents() == old(Contents())
    {
      var grouped: map<File, Data> := map[];
      for i := 0 to |patch|
        invariant Contents() == old(Contents())
        invariant forall k :: 0 <= k < i ==> Writable(Contents(), patch, k)
        invariant GroupedSoFar(grouped, Contents(), patch[..i])
      {
        grouped :- Group(patch, i, grouped);
      }
      assert patch[..|patch|] == patch;
      files := map file: File | file in files :: if file in grouped then Mapping(grouped[file]) else files[file];
      if patch != [] {
        WrittenAsApplied(old(Contents()), Contents(), patch, grouped);
      }
      return Ok(());
    }

    /** Takes keys out of their layer one at a time; a file that does not read stops it half way. */
    method Reset(keys: seq<Setting>, scope: Scope, defaults: map<Setting, Value>)
      returns (r: Result<map<Setting, View>, SettingsError>)
      requires Ready() && forall key: Setting :: key in defaults
      modifies this
      ensures !AllIn(keys, scope) ==> r == Err(WrongScope) && Contents() == old(Contents())
      ensures AllIn(keys, scope) && Readable(old(Contents())) ==> r.Ok?
      ensures r.Ok? ==> AllIn(keys, scope) && Contents() == WithReset(old(Contents()), keys, scope)
      ensures r.Err? ==> Contents() == old(Contents()) || PartlyReset(old(Contents()), Contents(), keys, scope)
      ensures r.Ok? ==> forall key: Setting :: key in r.value && r.value[key] == ViewOf(Contents(), key, defaults[key])
    {
      for i := 0 to |keys|
        invariant forall k :: 0 <= k < i ==> ScopeOf(keys[k]) == scope
      {
        if ScopeOf(keys[i]) != scope {
          return Err(WrongScope);
        }
      }
      if scope == User {
        if user.Broken? {
          return Err(Unreadable);
        }
        var data := DataOf(user);
        data := map name | name in data && (forall i :: 0 <= i < |keys| ==> UserName(keys[i]) != name) :: data[name];
        user := Mapping(data);
      } else {
        var removed := RemoveOverrides(keys);
        if removed.Err? {
          return Err(removed.error);
        }
      }
      ResetStaysReadable(old(Contents()), keys, scope);
      assert keys[..|keys|] == keys && ResetFirst(old(Contents()), Contents(), keys, scope, |keys|);
      r := Load(defaults);
    }

    method RemoveOverrides(keys: seq<Setting>) returns (r: Result<(), SettingsError>)
      requires Ready() && AllIn(keys, Project)
      modifies this
      ensures r.Ok? ==> Contents() == WithReset(old(Contents()), keys, Project)
      ensures r.Err? ==> PartlyReset(old(Contents()), Contents(), keys, Project)
      ensures Readable(old(Contents())) ==> r.Ok?
    {
      NothingReset(Contents());
      for i := 0 to |keys|
        invariant Contents() == WithReset(old(Contents()), keys[..i], Project)
      {
        var place := PlaceOf(keys[i]);
        ResetOneMore(old(Contents()), keys, i);
        if files[place.file].Broken? {
          assert ResetFirst(old(Contents()), Contents(), keys, Project, i);
          return Err(Unreadable);
        }
        files := files[place.file := Mapping(Drop(DataOf(files[place.file]), place))];
      }
      assert keys[..|keys|] == keys;
      return Ok(());
    }
  }

  /** The first few of the keys are taken out. */
  ghost predicate PartlyReset(before: World, after: World, keys: seq<Setting>, scope: Scope) {
    Complete(before) && exists n :: 0 <= n <= |keys| && ResetFirst(before, after, keys, scope, n)
  }

  ghost predicate ResetFirst(before: World, after: World, keys: seq<Setting>, scope: Scope, n: nat)
    requires n <= |keys| && Complete(before)
  {
    AllIn(keys[..n], scope) && after == WithReset(before, keys[..n], scope)
  }

  lemma NothingReset(w: World)
    requires Complete(w)
    ensures WithReset(w, [], Project) == w
  {
    assert WithReset(w, [], Project).files == w.files;
  }

  lemma NamedOneMore(keys: seq<Setting>, i: nat, file: File)
    requires AllIn(keys, Project) && i < |keys|
    ensures Named(keys[..i + 1], file) <==> Named(keys[..i], file) || file == PlaceOf(keys[i]).file
  {
    var init, longer := keys[..i], keys[..i + 1];
    if k :| 0 <= k < |init| && PlaceOf(init[k]).file == file {
      assert longer[k] == init[k];
    }
    if k :| 0 <= k < |longer| && PlaceOf(longer[k]).file == file {
      assert k == i || longer[k] == init[k];
    }
    assert longer[i] == keys[i];
  }

  lemma {:induction false} DroppedUnnamed(data: Data, file: File, keys: seq<Setting>)
    requires AllIn(keys, Project) && !Named(keys, file)
    ensures Dropped(data, file, keys) == data
  {
    if keys != [] {
      var init := keys[..|keys| - 1];
      assert forall i :: 0 <= i < |init| ==> init[i] == keys[i];
      DroppedUnnamed(data, file, init);
    }
  }

  lemma ResetOneMore(w: World, keys: seq<Setting>, i: nat)
    requires Complete(w) && AllIn(keys, Project) && i < |keys|
    ensures var now, place := WithReset(w, keys[..i], Project), PlaceOf(keys[i]);
      && (now.files[place.file].Broken? ==> !Readable(w))
      && WithReset(w, keys[..i + 1], Project) ==
         now.(files := now.files[place.file := Mapping(Drop(DataOf(now.files[place.file]), place))])
  {
    var init, longer, key := keys[..i], keys[..i + 1], keys[i];
    assert longer[..i] == init && longer[i] == key;
    var now, next := WithReset(w, init, Project), WithReset(w, longer, Project);
    var place := PlaceOf(key);
    forall file: File ensures
      next.files[file] == if file == place.file then Mapping(Drop(DataOf(now.files[file]), place)) else now.files[file]
    {
      NamedOneMore(keys, i, file);
      if !Named(init, file) {
        DroppedUnnamed(DataOf(w.files[file]), file, init);
      }
    }
  }

  lemma ResetStaysReadable(w: World, keys: seq<Setting>, scope: Scope)
    requires Complete(w) && AllIn(keys, scope)
    ensures Complete(WithReset(w, keys, scope)) && (Readable(w) ==> Readable(WithReset(w, keys, scope)))
  {
  }
}
