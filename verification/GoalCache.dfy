/** The goal list cached against a signature of its files (GoalLoader.cs). */
module GoalCache {
  import opened Wrappers

  type Path = string

  /** A file with its write time, which grows with every edit of the path. */
  datatype File = File(version: nat, text: string)

  type Disk = map<Path, File>

  /** What a stat yields: the write time, the fixed time of a missing file, or the mark of a failure. */
  datatype Ticks = At(version: nat) | Missing | Failed

  /** The signature: every file that was there, with its write time. */
  type Signature = map<Path, Ticks>

  /**
   What was read, and when each file was statted and read, and the directory listed for either; only
   signature and files are stored.
   */
  datatype Entry = Entry(signature: Signature, statted: map<Path, nat>, files: Disk, read: map<Path, nat>,
                         begun: nat, listed: nat)

  datatype Call =
    | Statting(todo: set<Path>, signature: Signature, statted: map<Path, nat>, begun: nat)
    | Missed(signature: Signature, statted: map<Path, nat>, begun: nat)
    | Reading(todo: set<Path>, entry: Entry)
    | Hit(signature: Signature, statted: map<Path, nat>, begun: nat, entry: Entry)
    | Loaded(entry: Entry)
    | Threw

  /** Every state of the disk so far, the last write time each path had, the cache, and the loads. */
  datatype System = System(disks: seq<Disk>, last: map<Path, nat>, cache: Option<Entry>, calls: map<nat, Call>)

  datatype Step =
    | Write(path: Path, file: File)
    | Delete(path: Path)
    | Begin(c: nat)
    | Stat(c: nat, path: Path, fails: bool)
    | Look(c: nat)
    | List(c: nat)
    | Read(c: nat, path: Path, fails: bool)
    | Store(c: nat)
    | Forget

  function Now(s: System): Disk
    requires s.disks != []
  {
    s.disks[|s.disks| - 1]
  }

  predicate Enabled(s: System, step: Step) {
    && s.disks != []
    && match step
       case Write(path, file) => path in s.last ==> file.version > s.last[path]
       case Delete(path) => true
       case Begin(c) => c !in s.calls
       case Stat(c, path, fails) => c in s.calls && s.calls[c].Statting? && path in s.calls[c].todo
       case Look(c) => c in s.calls && s.calls[c].Statting? && s.calls[c].todo == {}
       case List(c) => c in s.calls && s.calls[c].Missed?
       case Read(c, path, fails) => c in s.calls && s.calls[c].Reading? && path in s.calls[c].todo
       case Store(c) => c in s.calls && s.calls[c].Reading? && s.calls[c].todo == {}
       case Forget => true
  }

  function TicksOf(disk: Disk, path: Path, fails: bool): Ticks {
    if fails then Failed else if path in disk then At(disk[path].version) else Missing
  }

  function After(s: System, step: Step): System
    requires Enabled(s, step)
  {
    match step
    case Write(path, file) => s.(disks := s.disks + [Now(s)[path := file]], last := s.last[path := file.version])
    case Delete(path) => s.(disks := s.disks + [Now(s) - {path}])
    case Begin(c) => s.(calls := s.calls[c := Statting(Now(s).Keys, map[], map[], |s.disks| - 1)])
    case Stat(c, path, fails) => s.(calls := s.calls[c := Statted(s.calls[c], s, path, fails)])
    case Look(c) => s.(calls := s.calls[c := Looked(s.calls[c], s.cache)])
    case List(c) =>
      var call := s.calls[c];
      var entry := Entry(call.signature, call.statted, map[], map[], call.begun, |s.disks| - 1);
      s.(calls := s.calls[c := Reading(Now(s).Keys, entry)])
    case Read(c, path, fails) => s.(calls := s.calls[c := HasRead(s.calls[c], s, path, fails)])
    case Store(c) => s.(cache := Some(s.calls[c].entry), calls := s.calls[c := Loaded(s.calls[c].entry)])
    case Forget => s.(cache := None)
  }

  function Statted(call: Call, s: System, path: Path, fails: bool): Call
    requires call.Statting? && s.disks != []
  {
    Statting(call.todo - {path}, call.signature[path := TicksOf(Now(s), path, fails)],
             call.statted[path := |s.disks| - 1], call.begun)
  }

  function Looked(call: Call, cache: Option<Entry>): Call
    requires call.Statting?
  {
    if cache.Some? && cache.value.signature == call.signature then
      Hit(call.signature, call.statted, call.begun, cache.value)
    else Missed(call.signature, call.statted, call.begun)
  }

  /** A file that has gone, or does not parse, ends the load with an exception, and nothing is cached. */
  function HasRead(call: Call, s: System, path: Path, fails: bool): Call
    requires call.Reading? && s.disks != []
  {
    if fails || path !in Now(s) then Threw
    else
      var files, read := call.entry.files[path := Now(s)[path]], call.entry.read[path := |s.disks| - 1];
      Reading(call.todo - {path}, call.entry.(files := files, read := read))
  }

  /** A mark of failure stands for a stat that failed, and for nothing else; a missing file has its own mark. */
  lemma MarksOfStats(s: System, c: nat, path: Path, fails: bool)
    requires Enabled(s, Stat(c, path, fails))
    ensures var ticks := After(s, Stat(c, path, fails)).calls[c].signature[path];
      && (ticks.Failed? <==> fails)
      && (!fails ==> (ticks.Missing? <==> path !in Now(s)) && (path in Now(s) ==> ticks == At(Now(s)[path].version)))
  {
  }

  /** Once forgotten, nothing is hit until something is stored again. */
  lemma ForgottenMisses(s: System, c: nat)
    requires Enabled(s, Forget) && Enabled(After(s, Forget), Look(c))
    ensures After(After(s, Forget), Look(c)).calls[c].Missed?
  {
  }

  /** A load that ends without an exception is what the next look finds, if nothing is forgotten or stored between. */
  lemma StoredIsFound(s: System, c: nat, d: nat)
    requires Enabled(s, Store(c)) && c != d && Enabled(s, Look(d))
    ensures var t := After(s, Store(c));
      Enabled(t, Look(d)) &&
      (After(t, Look(d)).calls[d].Hit? <==> s.calls[d].signature == s.calls[c].entry.signature)
  {
  }

  ghost predicate Moves(a: System, b: System) {
    exists step :: Enabled(a, step) && b == After(a, step)
  }

  ghost predicate Behaviour(states: seq<System>) {
    && states != [] && states[0] == System([map[]], map[], None, map[])
    && forall i {:trigger MovesAt(states, i)} :: 0 < i < |states| ==> MovesAt(states, i)
  }

  ghost predicate MovesAt(states: seq<System>, i: nat)
    requires 0 < i < |states|
  {
    Moves(states[i - 1], states[i])
  }

  // --- the disk ------------------------------------------------------------------------------

  /** The same write time at two moments means the same file at every moment between. */
  ghost predicate SameBetween(disks: seq<Disk>, path: Path, i: nat, k: nat)
    requires i <= k < |disks|
  {
    path in disks[i] && path in disks[k] && disks[i][path].version == disks[k][path].version ==>
      forall j :: i <= j <= k ==> path in disks[j] && disks[j][path] == disks[i][path]
  }

  ghost predicate Grows(s: System) {
    && s.disks != []
    && (forall i, path :: 0 <= i < |s.disks| && path in s.disks[i] ==>
          path in s.last && s.disks[i][path].version <= s.last[path])
    && (forall path, i, k {:trigger SameBetween(s.disks, path, i, k)} :: 0 <= i <= k < |s.disks| ==>
          SameBetween(s.disks, path, i, k))
  }

  lemma WriteGrows(s: System, path: Path, file: File)
    requires Grows(s) && Enabled(s, Write(path, file))
    ensures Grows(After(s, Write(path, file)))
  {
    var t := After(s, Write(path, file));
    forall p, i, k | 0 <= i <= k < |t.disks| ensures SameBetween(t.disks, p, i, k) {
      if k < |s.disks| {
        assert SameBetween(s.disks, p, i, k);
      } else if i < k && p != path {
        assert SameBetween(s.disks, p, i, k - 1);
      }
    }
  }

  lemma DeleteGrows(s: System, path: Path)
    requires Grows(s)
    ensures Grows(After(s, Delete(path)))
  {
    var t := After(s, Delete(path));
    forall p, i, k | 0 <= i <= k < |t.disks| ensures SameBetween(t.disks, p, i, k) {
      if k < |s.disks| {
        assert SameBetween(s.disks, p, i, k);
      } else if i < k && p != path {
        assert SameBetween(s.disks, p, i, k - 1);
      }
    }
  }

  // --- honesty ----------------------------------------------------------------------------------

  /** Every stat and every read happened, at the moment it says, with what it says. */
  ghost predicate HonestStats(disks: seq<Disk>, signature: Signature, statted: map<Path, nat>) {
    && signature.Keys == statted.Keys
    && forall p :: p in signature ==>
      && statted[p] < |disks|
      && (signature[p].At? ==> p in disks[statted[p]] && disks[statted[p]][p].version == signature[p].version)
      && (signature[p].Missing? ==> p !in disks[statted[p]])
  }

  ghost predicate HonestReads(disks: seq<Disk>, entry: Entry) {
    && HonestStats(disks, entry.signature, entry.statted)
    && entry.files.Keys == entry.read.Keys
    && (forall p :: p in entry.read ==>
          entry.read[p] < |disks| && p in disks[entry.read[p]] && entry.files[p] == disks[entry.read[p]][p])
    && (forall p, q :: p in entry.statted && q in entry.read ==> entry.statted[p] <= entry.read[q])
  }

  ghost predicate HonestCall(disks: seq<Disk>, call: Call) {
    match call
    case Statting(_, signature, statted, _) => HonestStats(disks, signature, statted)
    case Missed(signature, statted, _) => HonestStats(disks, signature, statted)
    case Reading(_, entry) => HonestReads(disks, entry)
    case Hit(signature, statted, _, entry) =>
      HonestStats(disks, signature, statted) && HonestReads(disks, entry) && entry.signature == signature
    case Loaded(entry) => HonestReads(disks, entry)
    case Threw => true
  }

  /** Nothing is left out: what is listed is statted or to be statted, and read or to be read. */
  ghost predicate WholeCall(disks: seq<Disk>, call: Call) {
    match call
    case Statting(todo, signature, _, begun) => Covers(disks, signature.Keys + todo, begun)
    case Missed(signature, _, begun) => Covers(disks, signature.Keys, begun)
    case Reading(todo, entry) =>
      Covers(disks, entry.signature.Keys, entry.begun) && Covers(disks, entry.files.Keys + todo, entry.listed)
    case Hit(signature, _, begun, entry) => Covers(disks, signature.Keys, begun) && CoversAll(disks, entry)
    case Loaded(entry) => CoversAll(disks, entry)
    case Threw => true
  }

  /** These are exactly the files there were at that moment. */
  ghost predicate Covers(disks: seq<Disk>, paths: set<Path>, at: nat) {
    at < |disks| && paths == disks[at].Keys
  }

  ghost predicate CoversAll(disks: seq<Disk>, entry: Entry) {
    Covers(disks, entry.signature.Keys, entry.begun) && Covers(disks, entry.files.Keys, entry.listed)
  }

  ghost predicate Inv(s: System) {
    && Grows(s)
    && (s.cache.Some? ==> HonestReads(s.disks, s.cache.value) && CoversAll(s.disks, s.cache.value))
    && (forall c {:trigger s.calls[c]} :: c in s.calls ==> HonestCall(s.disks, s.calls[c]))
    && (forall c {:trigger WholeCall(s.disks, s.calls[c])} :: c in s.calls ==> WholeCall(s.disks, s.calls[c]))
  }

  lemma StaysHonest(disks: seq<Disk>, disk: Disk, call: Call)
    requires HonestCall(disks, call)
    ensures HonestCall(disks + [disk], call)
  {
  }

  lemma CallStep(s: System, step: Step, c: nat)
    requires Inv(s) && Enabled(s, step) && c in After(s, step).calls
    ensures HonestCall(After(s, step).disks, After(s, step).calls[c])
  {
    if c in s.calls {
      assert HonestCall(s.disks, s.calls[c]);
      match step
      case Write(_, _) => StaysHonest(s.disks, After(s, step).disks[|s.disks|], s.calls[c]);
      case Delete(_) => StaysHonest(s.disks, After(s, step).disks[|s.disks|], s.calls[c]);
      case Stat(d, path, fails) =>
        if d == c {
          StatHonest(s, s.calls[c], path, fails);
        }
      case Read(d, path, fails) =>
        if d == c {
          ReadHonest(s, s.calls[c], path, fails);
        }
      case _ =>
    }
  }

  lemma StatHonest(s: System, call: Call, path: Path, fails: bool)
    requires s.disks != [] && call.Statting? && HonestCall(s.disks, call)
    ensures HonestCall(s.disks, Statted(call, s, path, fails))
  {
  }

  lemma ReadHonest(s: System, call: Call, path: Path, fails: bool)
    requires s.disks != [] && call.Reading? && HonestCall(s.disks, call)
    ensures HonestCall(s.disks, HasRead(call, s, path, fails))
  {
  }

  lemma StaysWhole(disks: seq<Disk>, disk: Disk, call: Call)
    requires WholeCall(disks, call)
    ensures WholeCall(disks + [disk], call)
  {
  }

  lemma TakeOne(done: set<Path>, todo: set<Path>, path: Path)
    requires path in todo
    ensures done + {path} + (todo - {path}) == done + todo
  {
  }

  lemma StatWhole(s: System, call: Call, path: Path, fails: bool)
    requires s.disks != [] && call.Statting? && path in call.todo && WholeCall(s.disks, call)
    ensures WholeCall(s.disks, Statted(call, s, path, fails))
  {
    TakeOne(call.signature.Keys, call.todo, path);
    assert Statted(call, s, path, fails).signature.Keys == call.signature.Keys + {path};
  }

  lemma ReadWhole(s: System, call: Call, path: Path, fails: bool)
    requires s.disks != [] && call.Reading? && path in call.todo && WholeCall(s.disks, call)
    ensures WholeCall(s.disks, HasRead(call, s, path, fails))
  {
    if !fails && path in Now(s) {
      TakeOne(call.entry.files.Keys, call.todo, path);
      assert HasRead(call, s, path, fails).entry.files.Keys == call.entry.files.Keys + {path};
    }
  }

  lemma WholeStep(s: System, step: Step, c: nat)
    requires Inv(s) && Enabled(s, step) && c in After(s, step).calls
    ensures WholeCall(After(s, step).disks, After(s, step).calls[c])
  {
    if c in s.calls {
      assert WholeCall(s.disks, s.calls[c]);
      WholeStepOf(s, step, c);
    }
  }

  lemma WholeStepOf(s: System, step: Step, c: nat)
    requires c in s.calls && WholeCall(s.disks, s.calls[c]) && Enabled(s, step)
    requires s.cache.Some? ==> CoversAll(s.disks, s.cache.value)
    ensures WholeCall(After(s, step).disks, After(s, step).calls[c])
  {
    match step
    case Write(path, file) => StaysWhole(s.disks, Now(s)[path := file], s.calls[c]);
    case Delete(path) => StaysWhole(s.disks, Now(s) - {path}, s.calls[c]);
    case Stat(d, path, fails) =>
      if d == c {
        StatWhole(s, s.calls[c], path, fails);
      }
    case Read(d, path, fails) =>
      if d == c {
        ReadWhole(s, s.calls[c], path, fails);
      }
    case _ =>
  }

  lemma CacheWhole(s: System, step: Step)
    requires Inv(s) && Enabled(s, step) && After(s, step).cache.Some?
    ensures CoversAll(After(s, step).disks, After(s, step).cache.value)
  {
    match step
    case Write(path, file) => StaysWhole(s.disks, Now(s)[path := file], Loaded(s.cache.value));
    case Delete(path) => StaysWhole(s.disks, Now(s) - {path}, Loaded(s.cache.value));
    case Store(c) => assert WholeCall(s.disks, s.calls[c]);
    case _ =>
  }

  lemma InvStep(s: System, step: Step)
    requires Inv(s) && Enabled(s, step)
    ensures Inv(After(s, step))
  {
    forall c | c in After(s, step).calls ensures HonestCall(After(s, step).disks, After(s, step).calls[c]) {
      CallStep(s, step, c);
    }
    forall c | c in After(s, step).calls ensures WholeCall(After(s, step).disks, After(s, step).calls[c]) {
      WholeStep(s, step, c);
    }
    if After(s, step).cache.Some? {
      CacheWhole(s, step);
    }
    if s.cache.Some? {
      assert HonestCall(s.disks, Loaded(s.cache.value));
    }
    match step
    case Write(path, file) =>
      WriteGrows(s, path, file);
      if s.cache.Some? {
        StaysHonest(s.disks, Now(s)[path := file], Loaded(s.cache.value));
      }
    case Delete(path) =>
      DeleteGrows(s, path);
      if s.cache.Some? {
        StaysHonest(s.disks, Now(s) - {path}, Loaded(s.cache.value));
      }
    case Store(c) => assert HonestCall(s.disks, s.calls[c]);
    case _ =>
  }

  lemma {:induction false} InvAlways(states: seq<System>, k: nat)
    requires Behaviour(states) && k < |states|
    ensures Inv(states[k])
  {
    if k > 0 {
      InvAlways(states, k - 1);
      assert MovesAt(states, k);
      var step :| Enabled(states[k - 1], step) && states[k] == After(states[k - 1], step);
      InvStep(states[k - 1], step);
    }
  }

  // --- what a hit returns -----------------------------------------------------------------------------

  /**
   A hit answers for every file: its signature has exactly the files there were when this call listed them,
   and it returns exactly the files there were when they were listed to be read.
   */
  lemma HitIsWhole(states: seq<System>, k: nat, c: nat)
    requires Behaviour(states) && k < |states| && c in states[k].calls && states[k].calls[c].Hit?
    ensures var hit, disks := states[k].calls[c], states[k].disks;
      && hit.begun < |disks| && hit.signature.Keys == disks[hit.begun].Keys
      && hit.entry.listed < |disks| && hit.entry.files.Keys == disks[hit.entry.listed].Keys
      && hit.entry.begun < |disks| && disks[hit.entry.begun].Keys == disks[hit.begun].Keys
  {
    InvAlways(states, k);
    assert HonestCall(states[k].disks, states[k].calls[c]) && WholeCall(states[k].disks, states[k].calls[c]);
  }

  /** What reading every statted path at the moment of its stat in this call would have returned. */
  ghost predicate Fresh(disks: seq<Disk>, hit: Call)
    requires hit.Hit?
  {
    && hit.entry.files.Keys <= hit.signature.Keys
    && forall p :: p in hit.signature ==> FreshAt(disks, hit, p)
  }

  ghost predicate FreshAt(disks: seq<Disk>, hit: Call, p: Path)
    requires hit.Hit?
  {
    && p in hit.statted && hit.statted[p] < |disks|
    && (p in hit.entry.files <==> p in disks[hit.statted[p]])
    && (p in hit.entry.files ==> hit.entry.files[p] == disks[hit.statted[p]][p])
  }

  /** Every statted file was read in the very version that was statted, and nothing else was read. */
  ghost predicate ReadAsStatted(hit: Call)
    requires hit.Hit?
  {
    && hit.entry.files.Keys <= hit.signature.Keys
    && forall p :: p in hit.signature ==>
      hit.signature[p] == if p in hit.entry.files then At(hit.entry.files[p].version) else Missing
  }

  /**
   A hit is fresh exactly when what had been read were the statted versions, and nothing where nothing was
   found, unless a stat failed: a mark of failure may stand for anything.
   */
  lemma HitIsFreshIff(states: seq<System>, k: nat, c: nat)
    requires Behaviour(states) && k < |states| && c in states[k].calls && states[k].calls[c].Hit?
    requires forall p :: p in states[k].calls[c].signature ==> !states[k].calls[c].signature[p].Failed?
    ensures Fresh(states[k].disks, states[k].calls[c]) <==> ReadAsStatted(states[k].calls[c])
  {
    InvAlways(states, k);
    var s, hit := states[k], states[k].calls[c];
    assert HonestCall(s.disks, hit);
    if ReadAsStatted(hit) {
      forall p | p in hit.signature ensures FreshAt(s.disks, hit, p) {
        if p in hit.entry.files {
          SameFile(s, hit, p);
        }
      }
    }
    if Fresh(s.disks, hit) {
      forall p | p in hit.signature
        ensures hit.signature[p] == if p in hit.entry.files then At(hit.entry.files[p].version) else Missing
      {
        assert FreshAt(s.disks, hit, p);
      }
    }
  }

  lemma SameFile(s: System, hit: Call, p: Path)
    requires Grows(s) && hit.Hit? && HonestCall(s.disks, hit) && p in hit.signature && p in hit.entry.files
    requires hit.signature[p] == At(hit.entry.files[p].version)
    ensures FreshAt(s.disks, hit, p)
  {
    var stat, read := hit.statted[p], hit.entry.read[p];
    assert stat <= read ==> SameBetween(s.disks, p, stat, read);
    assert read <= stat ==> SameBetween(s.disks, p, read, stat);
  }

  /** No file was read both after this call's stat of it and after its own load's. */
  ghost predicate ReadInTime(hit: Call)
    requires hit.Hit?
  {
    forall p :: p in hit.signature && p in hit.statted && p in hit.entry.statted && p in hit.entry.read ==>
      hit.entry.read[p] <= hit.statted[p] || hit.entry.read[p] <= hit.entry.statted[p]
  }

  /** In particular, a hit on what a load had finished reading before this one began to stat is fresh. */
  lemma HitInTimeIsFresh(states: seq<System>, k: nat, c: nat)
    requires Behaviour(states) && k < |states| && c in states[k].calls && states[k].calls[c].Hit?
    requires var hit := states[k].calls[c];
      && (forall p :: p in hit.signature ==> !hit.signature[p].Failed?)
      && (forall p :: p in hit.entry.files <==> p in hit.signature && hit.signature[p].At?)
      && ReadInTime(hit)
    ensures Fresh(states[k].disks, states[k].calls[c])
  {
    InvAlways(states, k);
    var s, hit := states[k], states[k].calls[c];
    assert HonestCall(s.disks, hit);
    forall p | p in hit.signature && p in hit.entry.files ensures hit.signature[p] == At(hit.entry.files[p].version) {
      InTimeMeansStatted(s, hit, p);
    }
    assert hit.entry.files.Keys <= hit.signature.Keys;
    HitIsFreshIff(states, k, c);
  }

  lemma InTimeMeansStatted(s: System, hit: Call, p: Path)
    requires Grows(s) && hit.Hit? && HonestCall(s.disks, hit) && ReadInTime(hit)
    requires p in hit.signature && hit.signature[p].At? && p in hit.entry.files
    ensures hit.signature[p] == At(hit.entry.files[p].version)
  {
    var first, read, stat := hit.entry.statted[p], hit.entry.read[p], hit.statted[p];
    assert first <= read;
    if read <= stat {
      assert SameBetween(s.disks, p, first, stat);
    }
  }

  /** Whatever the timing, a hit never returns a file older than it was when this call statted it. */
  lemma HitIsNeverOlder(states: seq<System>, k: nat, c: nat, p: Path)
    requires Behaviour(states) && k < |states| && c in states[k].calls && states[k].calls[c].Hit?
    requires var hit := states[k].calls[c]; p in hit.signature && hit.signature[p].At? && p in hit.entry.files
    ensures var hit := states[k].calls[c];
      || FreshAt(states[k].disks, hit, p)
      || (p in hit.statted && p in hit.entry.read && hit.entry.read[p] > hit.statted[p])
  {
    InvAlways(states, k);
    var s, hit := states[k], states[k].calls[c];
    assert HonestCall(s.disks, hit);
    if hit.entry.read[p] <= hit.statted[p] {
      assert SameBetween(s.disks, p, hit.entry.statted[p], hit.statted[p]);
    }
  }

  // --- hits that are not fresh ---------------------------------------------------------------------------

  lemma Extend(states: seq<System>, step: Step) returns (longer: seq<System>)
    requires Behaviour(states) && Enabled(states[|states| - 1], step)
    ensures Behaviour(longer) && longer[|longer| - 1] == After(states[|states| - 1], step)
  {
    var last := states[|states| - 1];
    longer := states + [After(last, step)];
    assert Moves(last, After(last, step));
    forall i | 0 < i < |longer| ensures MovesAt(longer, i) {
      if i < |states| {
        assert MovesAt(states, i);
      }
    }
  }

  lemma StatsOne(p: Path, file: File, at: nat)
    ensures map[][p := At(file.version)] == map[p := At(file.version)]
    ensures map[][p := at] == map[p := at] && {p} - {p} == {}
  {
  }

  lemma ReadsOne(p: Path, file: File, at: nat)
    ensures map[][p := file] == map[p := file] && map[][p := at] == map[p := at] && {p} - {p} == {}
  {
  }

  /** Two loads have statted one file, and neither has looked at the cache. */
  ghost function BothStatted(p: Path, file: File): System {
    var call := Statting({}, map[p := At(file.version)], map[p := 1], 1);
    System([map[], map[p := file]], map[p := file.version], None, map[0 := call, 1 := call])
  }

  lemma BothStat(p: Path, file: File) returns (states: seq<System>)
    ensures Behaviour(states) && states[|states| - 1] == BothStatted(p, file)
  {
    states := Extend([System([map[]], map[], None, map[])], Write(p, file));
    states := Extend(states, Begin(0));
    states := Extend(states, Begin(1));
    var begun := Statting({p}, map[], map[], 1);
    var s := states[|states| - 1];
    ReadsOne(p, file, 0);
    assert s.disks == [map[], map[p := file]] && map[p := file].Keys == {p};
    assert s.calls[0] == begun && s.calls[1] == begun;
    assert s.calls == map[0 := begun, 1 := begun];
    states := Extend(states, Stat(0, p, false));
    states := Extend(states, Stat(1, p, false));
    var call := Statting({}, map[p := At(file.version)], map[p := 1], 1);
    s := states[|states| - 1];
    StatsOne(p, file, |s.disks| - 1);
    assert s.calls[0] == call && s.calls[1] == call;
    assert s.calls == map[0 := call, 1 := call];
  }

  /** The first load has missed, and reads the file only after it was edited. */
  ghost function EditedBeforeRead(p: Path, file: File, edited: File): System {
    var entry := Entry(map[p := At(file.version)], map[p := 1], map[p := edited], map[p := 2], 1, 2);
    System([map[], map[p := file], map[p := edited]], map[p := edited.version], Some(entry),
           map[0 := Loaded(entry), 1 := Statting({}, map[p := At(file.version)], map[p := 1], 1)])
  }

  lemma EditBeforeRead(p: Path, file: File, edited: File) returns (states: seq<System>)
    requires edited.version > file.version
    ensures Behaviour(states) && states[|states| - 1] == EditedBeforeRead(p, file, edited)
  {
    states := BothStat(p, file);
    states := Extend(states, Look(0));
    states := Extend(states, Write(p, edited));
    var s := states[|states| - 1];
    assert map[p := file][p := edited] == map[p := edited] && map[p := edited].Keys == {p};
    assert s.disks == [map[], map[p := file], map[p := edited]];
    states := Extend(states, List(0));
    states := Extend(states, Read(0, p, false));
    s := states[|states| - 1];
    var entry := Entry(map[p := At(file.version)], map[p := 1], map[p := edited], map[p := 2], 1, 2);
    ReadsOne(p, edited, |s.disks| - 1);
    assert s.calls[0] == Reading({}, entry);
    states := Extend(states, Store(0));
    s := states[|states| - 1];
    assert s.calls == map[0 := Loaded(entry), 1 := Statting({}, map[p := At(file.version)], map[p := 1], 1)];
  }

  /** A load that overlaps another can hit on a file edited after its own stat. */
  lemma OverlappingHitIsNotFresh(p: Path, file: File, edited: File) returns (states: seq<System>)
    requires edited.version > file.version
    ensures Behaviour(states)
    ensures var s := states[|states| - 1];
      && 1 in s.calls && s.calls[1].Hit? && s.calls[1].signature == map[p := At(file.version)]
      && s.calls[1].entry.files == map[p := edited] && !Fresh(s.disks, s.calls[1])
  {
    states := EditBeforeRead(p, file, edited);
    states := Extend(states, Look(1));
    var s := states[|states| - 1];
    assert s.calls[1].statted[p] == 1 && s.disks[1][p] == file && p in s.calls[1].signature;
    assert !FreshAt(s.disks, s.calls[1], p);
  }

  /** A load listed no file, and read one that was created since and is deleted again by now. */
  ghost function GoneAgain(p: Path, file: File): System {
    var entry := Entry(map[], map[], map[p := file], map[p := 1], 0, 1);
    System([map[], map[p := file], map[]], map[p := file.version], Some(entry), map[0 := Loaded(entry)])
  }

  lemma CreateAndDelete(p: Path, file: File) returns (states: seq<System>)
    ensures Behaviour(states) && states[|states| - 1] == GoneAgain(p, file)
  {
    states := Extend([System([map[]], map[], None, map[])], Begin(0));
    states := Extend(states, Look(0));
    states := Extend(states, Write(p, file));
    var s := states[|states| - 1];
    assert s.disks == [map[], map[p := file]] && s.calls == map[0 := Missed(map[], map[], 0)];
    states := Extend(states, List(0));
    states := Extend(states, Read(0, p, false));
    s := states[|states| - 1];
    var entry := Entry(map[], map[], map[p := file], map[p := 1], 0, 1);
    ReadsOne(p, file, |s.disks| - 1);
    assert s.calls[0] == Reading({}, entry);
    states := Extend(states, Store(0));
    states := Extend(states, Delete(p));
    s := states[|states| - 1];
    assert map[p := file] - {p} == map[] && s.calls == map[0 := Loaded(entry)];
    assert s.disks == [map[], map[p := file], map[]];
  }

  /** Even alone, a load can hit on a file that existed only while an earlier one was reading. */
  lemma HitOnDeletedFile(p: Path, file: File) returns (states: seq<System>)
    ensures Behaviour(states)
    ensures var s := states[|states| - 1];
      && 1 in s.calls && s.disks != [] && p !in Now(s) && s.calls[1].Hit? && s.calls[1].signature == map[]
      && s.calls[1].entry.files == map[p := file] && !Fresh(s.disks, s.calls[1])
  {
    states := CreateAndDelete(p, file);
    states := Extend(states, Begin(1));
    states := Extend(states, Look(1));
  }
}
