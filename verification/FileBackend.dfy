/** Persistence: writers, savers and crashes interleaved step by step. Save takes a
    snapshot, writes it to a temporary file and renames that over state.json, all
    under one mutex. */
module FileStore {
  import opened Options
  import opened Memory
  import opened GoValues
  import opened JsonTrees

  type Mem = map<string, GoValue>

  type Document = map<string, Json>

  // A file's content: a complete JSON document, or one cut short.
  datatype File = Absent | Image(m: Document) | Torn

  function Encoded(m: Mem): Document {
    map k | k in m :: Encode(m[k])
  }

  function Load(f: File): Mem {
    if f.Image? then map k | k in f.m :: Decode(f.m[k]) else map[]
  }

  /** Where a saver is inside Save. since: which memory state was current when Save was
      called; snap: which one it took the snapshot of. */
  datatype Saver =
    | Idle
    | Waiting(since: nat)
    | Locked(since: nat)
    | Snapped(since: nat, snap: nat)
    | Writing(since: nat, snap: nat)
    | Written(since: nat, snap: nat)
    | Renamed(since: nat, snap: nat)

  predicate Inside(v: Saver) {
    !v.Idle? && !v.Waiting?
  }

  /** history: every memory state so far, the current one last. saved: which of them
      state.json holds. */
  datatype State = State(
    history: seq<Mem>, disk: File, saved: Option<nat>, tmp: File, holder: Option<nat>, savers: map<nat, Saver>)

  datatype Event =
    | Mutate(m: Mem)      // any Set, Delete, DeleteByPrefix or Reset
    | Call(p: nat)        // the ticker or the shutdown path calls Save
    | Acquire(p: nat)
    | Snap(p: nat)
    | Open(p: nat)        // the temporary file is truncated
    | Fill(p: nat)        // its last byte is written
    | Rename(p: nat)
    | Fail(p: nat)        // marshal, mkdir, write or rename reports an error
    | Release(p: nat)
    | Crash               // the process dies and is started again

  function At(s: State, p: nat): Saver {
    if p in s.savers then s.savers[p] else Idle
  }

  function Now(s: State): nat
    requires |s.history| > 0
  {
    |s.history| - 1
  }

  // mutex: whether Save holds one; the source does.
  predicate Enabled(s: State, e: Event, mutex: bool) {
    match e
    case Mutate(_) => true
    case Call(p) => At(s, p).Idle?
    case Acquire(p) => At(s, p).Waiting? && (mutex ==> s.holder.None?)
    case Snap(p) => At(s, p).Locked?
    case Open(p) => At(s, p).Snapped?
    case Fill(p) => At(s, p).Writing?
    case Rename(p) => At(s, p).Written? && s.tmp != Absent
    case Fail(p) => At(s, p).Locked? || At(s, p).Snapped? || At(s, p).Writing? || At(s, p).Written?
    case Release(p) => At(s, p).Renamed?
    case Crash => true
  }

  function Next(s: State, e: Event): (t: State)
    requires |s.history| > 0
    ensures s.history <= t.history
  {
    match e
    case Mutate(m) => s.(history := s.history + [m])
    case Call(p) => s.(savers := s.savers[p := Waiting(Now(s))])
    case Acquire(p) => s.(savers := s.savers[p := if At(s, p).Waiting? then Locked(At(s, p).since) else Idle], holder := Some(p))
    case Snap(p) => s.(savers := s.savers[p := if At(s, p).Locked? then Snapped(At(s, p).since, Now(s)) else Idle])
    case Open(p) => s.(tmp := Torn, savers := s.savers[p := if At(s, p).Snapped? then Writing(At(s, p).since, At(s, p).snap) else Idle])
    case Fill(p) =>
      if At(s, p).Writing? && At(s, p).snap < |s.history| then
        s.(tmp := Image(Encoded(s.history[At(s, p).snap])), savers := s.savers[p := Written(At(s, p).since, At(s, p).snap)])
      else s
    case Rename(p) =>
      if At(s, p).Written? then
        s.(disk := s.tmp, saved := Some(At(s, p).snap), tmp := Absent, savers := s.savers[p := Renamed(At(s, p).since, At(s, p).snap)])
      else s
    case Fail(p) => s.(savers := s.savers[p := Idle], holder := None)
    case Release(p) => s.(savers := s.savers[p := Idle], holder := None)
    case Crash => s.(history := s.history + [Load(s.disk)], holder := None, savers := map[])
  }

  const BOOT: State := State([map[]], Absent, None, Absent, None, map[])

  // ---- The invariant ----

  // Whatever state.json holds is the complete image of one state the memory had.
  ghost predicate DiskIsPast(s: State) {
    && |s.history| > 0
    && (s.saved.None? ==> s.disk == Absent)
    && (s.saved.Some? ==> s.saved.value < |s.history| && s.disk == Image(Encoded(s.history[s.saved.value])))
  }

  ghost predicate Exclusive(s: State) {
    forall p: nat :: Inside(At(s, p)) <==> s.holder == Some(p)
  }

  // A saver's snapshot is no older than its call and than what is on disk.
  ghost predicate Fresh(s: State, v: Saver) {
    match v
    case Idle => true
    case Waiting(a) => a < |s.history|
    case Locked(a) => a < |s.history|
    case Snapped(a, b) => a <= b < |s.history| && (s.saved.Some? ==> s.saved.value <= b)
    case Writing(a, b) => a <= b < |s.history| && (s.saved.Some? ==> s.saved.value <= b)
    case Written(a, b) => a <= b < |s.history| && (s.saved.Some? ==> s.saved.value <= b) && s.tmp == Image(Encoded(s.history[b]))
    case Renamed(a, b) => a <= b < |s.history| && s.saved == Some(b)
  }

  ghost predicate Good(s: State) {
    DiskIsPast(s) && Exclusive(s) && forall p: nat :: Fresh(s, At(s, p))
  }

  ghost predicate NoOlder(a: Option<nat>, b: Option<nat>) {
    a.Some? ==> b.Some? && a.value <= b.value
  }

  lemma BootGood()
    ensures Good(BOOT)
  {
  }

  /** No step, a crash included, leaves a partial or foreign image in state.json or
      moves it back in the history. */
  lemma StepGood(s: State, e: Event)
    requires Good(s) && Enabled(s, e, true)
    ensures Good(Next(s, e)) && NoOlder(s.saved, Next(s, e).saved)
  {
    var t := Next(s, e);
    if e.Mutate? || e.Crash? {
      assert forall p: nat :: At(t, p) == At(s, p) || At(t, p).Idle?;
      assert forall i :: 0 <= i < |s.history| ==> t.history[i] == s.history[i];
    } else {
      assert t.history == s.history;
      assert forall p: nat :: p != e.p ==> At(t, p) == At(s, p);
      assert Fresh(s, At(s, e.p));
      assert Fresh(t, At(t, e.p));
      assert forall p: nat :: p != e.p && s.holder == Some(e.p) ==> !Inside(At(s, p));
    }
  }

  // ---- Runs ----

  ghost predicate Follows(s: State, es: seq<Event>, mutex: bool)
    requires |s.history| > 0
    decreases |es|
  {
    es != [] ==> Enabled(s, es[0], mutex) && Follows(Next(s, es[0]), es[1..], mutex)
  }

  ghost function After(s: State, es: seq<Event>): (t: State)
    requires |s.history| > 0
    ensures |t.history| > 0
    decreases |es|
  {
    if es == [] then s else After(Next(s, es[0]), es[1..])
  }

  /** In any interleaving of any number of savers, writers and crashes, state.json is
      absent or a complete past state, and its contents only move forwards. */
  lemma {:induction false} RunGood(s: State, es: seq<Event>)
    requires Good(s) && Follows(s, es, true)
    ensures Good(After(s, es)) && NoOlder(s.saved, After(s, es).saved)
    decreases |es|
  {
    if es != [] {
      StepGood(s, es[0]);
      RunGood(Next(s, es[0]), es[1..]);
    }
  }

  /** So from the empty backend on, state.json never holds anything else. */
  lemma BootRunGood(es: seq<Event>)
    requires Follows(BOOT, es, true)
    ensures Good(After(BOOT, es))
  {
    BootGood();
    RunGood(BOOT, es);
  }

  /** When Save returns without an error, what was in memory when it was called, or
      something later, is on disk. */
  lemma SaveCovers(s: State, p: nat)
    requires Good(s) && Enabled(s, Release(p), true)
    ensures s.saved.Some? && At(s, p).since <= s.saved.value && s.disk == Image(Encoded(s.history[s.saved.value]))
  {
    assert Fresh(s, At(s, p));
  }

  /** A restart brings back exactly the state last saved if and only if all its values are
      JSON-shaped; its JSON text comes back in any case. */
  lemma RestartRestores(s: State)
    requires Good(s) && s.saved.Some?
    ensures var before, after := s.history[s.saved.value], Next(s, Crash).history[|s.history|];
            && (after == before <==> forall k :: k in before ==> Shaped(before[k]))
            && Encoded(after) == Encoded(before)
  {
    var before, after := s.history[s.saved.value], Next(s, Crash).history[|s.history|];
    assert after == Load(Image(Encoded(before)));
    ReloadIff(before);
    hide Good, Next, Encode, Decode, Shaped;
  }

  lemma ReloadOne(before: Mem, k: string)
    requires k in before
    ensures var after := Load(Image(Encoded(before)));
            && k in after && (after[k] == before[k] <==> Shaped(before[k])) && Encode(after[k]) == Encode(before[k])
  {
    RoundTripIff(before[k]);
    EncodeDecode(Encode(before[k]));
    hide Encode, Decode, Shaped;
  }

  lemma ReloadIff(before: Mem)
    ensures var after := Load(Image(Encoded(before)));
            && (after == before <==> forall k :: k in before ==> Shaped(before[k]))
            && Encoded(after) == Encoded(before)
  {
    var after := Load(Image(Encoded(before)));
    assert after.Keys == before.Keys;
    forall k | k in before
      ensures after[k] == before[k] <==> Shaped(before[k])
      ensures Encode(after[k]) == Encode(before[k])
    {
      ReloadOne(before, k);
    }
    hide Encode, Decode, Shaped, Load;
    if forall k :: k in before ==> Shaped(before[k]) { assert after == before; }
  }

  /** Saving and reloading what was reloaded changes nothing more. */
  lemma ReloadSettles(f: File)
    ensures Load(Image(Encoded(Load(f)))) == Load(f)
  {
    var m := Load(f);
    forall k | k in m ensures Decode(Encode(m[k])) == m[k] { EncodeDecode(f.m[k]); }
    hide Encode, Decode;
  }

  // Two savers without a mutex: 1 has its snapshot of m1 when 2 saves m2.
  function Overtaken(m1: Mem, m2: Mem): State {
    State([map[], m1, m2], Image(Encoded(m2)), Some(2), Absent, Some(2), map[1 := Snapped(1, 1), 2 := Renamed(2, 2)])
  }

  function Overtaking(m1: Mem, m2: Mem): seq<Event> {
    [Mutate(m1), Call(1), Acquire(1), Snap(1)] + [Mutate(m2), Call(2), Acquire(2), Snap(2)] + [Open(2), Fill(2), Rename(2)]
  }

  lemma OvertakingHappens(m1: Mem, m2: Mem)
    ensures Follows(BOOT, Overtaking(m1, m2), false) && After(BOOT, Overtaking(m1, m2)) == Overtaken(m1, m2)
  {
    var es1, es2 := [Mutate(m1), Call(1), Acquire(1), Snap(1)], [Mutate(m2), Call(2), Acquire(2), Snap(2)];
    FirstSnapshot(m1);
    SecondSnapshot(m1, m2);
    NewerSave(m1, m2);
    hide Next, Enabled, Follows, After, Encoded;
    Joined(BOOT, es1, es2);
    Joined(BOOT, es1 + es2, [Open(2), Fill(2), Rename(2)]);
  }

  /** The mutex is needed: without it a slow saver can put an old state over a newer one. */
  lemma WithoutMutexDiskGoesBack(m1: Mem, m2: Mem)
    ensures exists es, fs :: Follows(BOOT, es, false) && Follows(After(BOOT, es), fs, false)
              && !NoOlder(After(BOOT, es).saved, After(After(BOOT, es), fs).saved)
  {
    var es, fs := Overtaking(m1, m2), [Open(1), Fill(1), Rename(1)];
    OvertakingHappens(m1, m2);
    OlderSave(m1, m2);
    hide Next, Enabled, Follows, After, Encoded, Overtaking;
    assert Follows(Overtaken(m1, m2), fs, false);
    assert !NoOlder(After(BOOT, es).saved, After(After(BOOT, es), fs).saved);
  }

  lemma FirstSnapshot(m1: Mem)
    ensures Follows(BOOT, [Mutate(m1), Call(1), Acquire(1), Snap(1)], false)
    ensures After(BOOT, [Mutate(m1), Call(1), Acquire(1), Snap(1)])
              == State([map[], m1], Absent, None, Absent, Some(1), map[1 := Snapped(1, 1)])
  {
    var h := [map[], m1];
    Path4(BOOT, Mutate(m1), State(h, Absent, None, Absent, None, map[]), Call(1), State(h, Absent, None, Absent, None, map[1 := Waiting(1)]),
          Acquire(1), State(h, Absent, None, Absent, Some(1), map[1 := Locked(1)]),
          Snap(1), State(h, Absent, None, Absent, Some(1), map[1 := Snapped(1, 1)]));
  }

  lemma SecondSnapshot(m1: Mem, m2: Mem)
    ensures var s := State([map[], m1], Absent, None, Absent, Some(1), map[1 := Snapped(1, 1)]);
            var es := [Mutate(m2), Call(2), Acquire(2), Snap(2)];
            Follows(s, es, false) && After(s, es)
              == State([map[], m1, m2], Absent, None, Absent, Some(2), map[1 := Snapped(1, 1), 2 := Snapped(2, 2)])
  {
    var h := [map[], m1, m2];
    Path4(State([map[], m1], Absent, None, Absent, Some(1), map[1 := Snapped(1, 1)]),
          Mutate(m2), State(h, Absent, None, Absent, Some(1), map[1 := Snapped(1, 1)]),
          Call(2), State(h, Absent, None, Absent, Some(1), map[1 := Snapped(1, 1), 2 := Waiting(2)]),
          Acquire(2), State(h, Absent, None, Absent, Some(2), map[1 := Snapped(1, 1), 2 := Locked(2)]),
          Snap(2), State(h, Absent, None, Absent, Some(2), map[1 := Snapped(1, 1), 2 := Snapped(2, 2)]));
  }

  lemma NewerSave(m1: Mem, m2: Mem)
    ensures var s := State([map[], m1, m2], Absent, None, Absent, Some(2), map[1 := Snapped(1, 1), 2 := Snapped(2, 2)]);
            var es := [Open(2), Fill(2), Rename(2)];
            Follows(s, es, false) && After(s, es)
              == State([map[], m1, m2], Image(Encoded(m2)), Some(2), Absent, Some(2), map[1 := Snapped(1, 1), 2 := Renamed(2, 2)])
  {
    var h := [map[], m1, m2];
    Path3(State(h, Absent, None, Absent, Some(2), map[1 := Snapped(1, 1), 2 := Snapped(2, 2)]),
          Open(2), State(h, Absent, None, Torn, Some(2), map[1 := Snapped(1, 1), 2 := Writing(2, 2)]),
          Fill(2), State(h, Absent, None, Image(Encoded(m2)), Some(2), map[1 := Snapped(1, 1), 2 := Written(2, 2)]),
          Rename(2), State(h, Image(Encoded(m2)), Some(2), Absent, Some(2), map[1 := Snapped(1, 1), 2 := Renamed(2, 2)]));
  }

  lemma OlderSave(m1: Mem, m2: Mem)
    ensures var s := State([map[], m1, m2], Image(Encoded(m2)), Some(2), Absent, Some(2), map[1 := Snapped(1, 1), 2 := Renamed(2, 2)]);
            var es := [Open(1), Fill(1), Rename(1)];
            Follows(s, es, false) && After(s, es)
              == State([map[], m1, m2], Image(Encoded(m1)), Some(1), Absent, Some(2), map[1 := Renamed(1, 1), 2 := Renamed(2, 2)])
  {
    var h := [map[], m1, m2];
    Path3(State(h, Image(Encoded(m2)), Some(2), Absent, Some(2), map[1 := Snapped(1, 1), 2 := Renamed(2, 2)]),
          Open(1), State(h, Image(Encoded(m2)), Some(2), Torn, Some(2), map[1 := Writing(1, 1), 2 := Renamed(2, 2)]),
          Fill(1), State(h, Image(Encoded(m2)), Some(2), Image(Encoded(m1)), Some(2), map[1 := Written(1, 1), 2 := Renamed(2, 2)]),
          Rename(1), State(h, Image(Encoded(m1)), Some(1), Absent, Some(2), map[1 := Renamed(1, 1), 2 := Renamed(2, 2)]));
  }

  ghost predicate Goes(s: State, e: Event, t: State) {
    |s.history| > 0 && Enabled(s, e, false) && Next(s, e) == t
  }

  lemma One(s: State, e: Event, t: State, es: seq<Event>)
    requires Goes(s, e, t)
    ensures |t.history| > 0 && (Follows(t, es, false) ==> Follows(s, [e] + es, false)) && After(s, [e] + es) == After(t, es)
  {
    assert ([e] + es)[1..] == es;
    hide Enabled;
  }

  lemma Path3(s: State, a: Event, s1: State, b: Event, s2: State, c: Event, s3: State)
    requires Goes(s, a, s1) && Goes(s1, b, s2) && Goes(s2, c, s3)
    ensures |s.history| > 0 && Follows(s, [a, b, c], false) && After(s, [a, b, c]) == s3
  {
    assert |s.history| > 0 && |s1.history| > 0 && |s2.history| > 0;
    hide Goes;
    One(s, a, s1, [b, c]);
    One(s1, b, s2, [c]);
    One(s2, c, s3, []);
    assert Follows(s3, [], false) && After(s3, []) == s3;
    assert [a] + [b, c] == [a, b, c] && [b] + [c] == [b, c] && [c] + [] == [c];
    hide Follows, After;
  }

  lemma Path4(s: State, a: Event, s1: State, b: Event, s2: State, c: Event, s3: State, d: Event, s4: State)
    requires Goes(s, a, s1) && Goes(s1, b, s2) && Goes(s2, c, s3) && Goes(s3, d, s4)
    ensures |s.history| > 0 && Follows(s, [a, b, c, d], false) && After(s, [a, b, c, d]) == s4
  {
    assert |s.history| > 0;
    hide Goes, Follows, After;
    One(s, a, s1, [b, c, d]);
    Path3(s1, b, s2, c, s3, d, s4);
    assert [a] + [b, c, d] == [a, b, c, d];
  }

  lemma {:induction false} Joined(s: State, es: seq<Event>, fs: seq<Event>)
    requires |s.history| > 0 && Follows(s, es, false)
    ensures Follows(s, es + fs, false) <==> Follows(After(s, es), fs, false)
    ensures After(s, es + fs) == After(After(s, es), fs)
    decreases |es|
  {
    if es == [] {
      assert es + fs == fs;
    } else {
      assert (es + fs)[1..] == es[1..] + fs;
      hide Next, Enabled;
      Joined(Next(s, es[0]), es[1..], fs);
    }
  }

  // ---- One saver alone ----

  datatype Fault = NoFault | MarshalFault | DirectoryFault | WriteFault | RenameFault

  /** The backend as one thread sees it. */
  class FileBackend {
    const mem: MemoryBackend<GoValue>
    var disk: File
    var tmp: File

    // NewFileBackend over a state.json left by an earlier process.
    constructor (found: File)
      ensures mem.data == Load(found) && disk == found && fresh(mem)
    {
      mem := new MemoryBackend();
      disk, tmp := found, Absent;
      new;
      ReadBack();
    }

    // load
    method ReadBack()
      requires mem.data == map[]
      modifies mem
      ensures mem.data == Load(disk)
    {
      if !disk.Image? { return; }
      var todo := disk.m.Keys;
      while todo != {}
        invariant todo <= disk.m.Keys
        invariant mem.data == map k | k in disk.m && k !in todo :: Decode(disk.m[k])
      {
        var k :| k in todo;
        todo := todo - {k};
        mem.Set(k, Decode(disk.m[k]));
      }
    }

    method Save(fault: Fault) returns (ok: bool)
      modifies this
      ensures ok == (fault == NoFault)
      ensures disk == if ok then Image(Encoded(mem.data)) else old(disk)
      ensures ok ==> tmp == Absent
    {
      var state := mem.Snapshot();
      if fault == MarshalFault || fault == DirectoryFault { return false; }
      tmp := Torn;
      if fault == WriteFault { return false; }
      tmp := Image(Encoded(state));
      if fault == RenameFault { return false; }
      disk, tmp := tmp, Absent;
      ok := true;
    }
  }
}
