/** The lock-free stash of src/store/replay.rs as its callers see it: one atomic register per
    key. A rename is a write, an unlink is an erase, and a recall returns what the register held
    at the moment it was opened, whatever is interleaved before it closes. */
module StashRegister {
  import opened Base
  import opened Replay
  import opened StashProtocol

  /** The bytes under a key. */
  ghost function Value(s: Fs, key: string): Option<Bytes> {
    if Stashable(key) && key in s.dir && s.dir[key] in s.files then Some(s.files[s.dir[key]]) else None
  }

  /** The register a step should leave: only a prune of this very name and a rename of this very
      key, its temp file still there, touch it. */
  ghost function Register(s: Fs, a: Action, key: string): Option<Bytes> {
    match a
    case Unlink(name) => if name == key then None else Value(s, key)
    case Rename(w) =>
      if w in s.writers && s.writers[w].key == key && Temp(s.writers[w]) in s.dir then Some(s.writers[w].payload)
      else Value(s, key)
    case _ => Value(s, key)
  }

  lemma {:induction false} CreateKeepsValue(s: Fs, w: nat, key: string)
    requires Inv(s) && Enabled(s, Create(w))
    ensures Value(Do(s, Create(w)), key) == Value(s, key)
  {
    TempIsNoKey(s.writers[w].pid, s.writers[w].nonce);
    CreateIsUnshared(s, w);
    hide TempName, Stashable, WritersOk, NoncesOk, KeysOk, ReadersOk, RecalledOk;
  }

  lemma {:induction false} WriteKeepsValue(s: Fs, w: nat, n: nat, key: string)
    requires Inv(s) && Enabled(s, Write(w, n))
    ensures Value(Do(s, Write(w, n)), key) == Value(s, key)
  {
    if Stashable(key) && key in s.dir {
      WriteKeepsSealed(s, w, n, s.dir[key]);
    }
    hide Temp, Stashable, WriteAt, WritersOk, NoncesOk, KeysOk, ReadersOk, RecalledOk;
  }

  lemma {:induction false} RenameSetsValue(s: Fs, w: nat, key: string)
    requires Inv(s) && Enabled(s, Rename(w))
    ensures Value(Do(s, Rename(w)), key) == Register(s, Rename(w), key)
  {
    var wr := s.writers[w];
    TempIsNoKey(wr.pid, wr.nonce);
    RenameKeeps(s, w);
    assert WriterOk(s, wr);
    hide TempName, Stashable, WriterOk, WritersOk, NoncesOk, KeysOk, ReadersOk, RecalledOk;
  }

  /** Every step of every client does to each key what an atomic register would. */
  lemma {:induction false} StepIsAtomic(s: Fs, a: Action, key: string)
    requires Inv(s) && Enabled(s, a)
    ensures Value(Do(s, a), key) == Register(s, a, key)
  {
    match a {
      case Create(w) => CreateKeepsValue(s, w, key);
      case Write(w, n) => WriteKeepsValue(s, w, n, key);
      case Rename(w) => RenameSetsValue(s, w, key);
      case _ => hide Inv, Stashable, Temp;
    }
  }

  /** Who is at work: a writer from its call to its rename, its failure or its process's exit. */
  lemma {:induction false} WritersComeAndGo(s: Fs, a: Action, w: nat)
    requires Enabled(s, a)
    ensures w in Do(s, a).writers <==>
      || (a.Begin? && a.w == w)
      || (w in s.writers && a != Rename(w) && a != Fail(w) && a != Exit(s.writers[w].pid))
  {
    hide Temp, WriteAt, Stashable;
  }

  // ----- readers -----

  /** An open recall of `key` whose file is `payload`. */
  ghost predicate Holding(s: Fs, r: nat, key: string, payload: Bytes) {
    && r in s.readers && s.readers[r].key == key && s.readers[r].got <= payload
    && s.readers[r].ino in s.files && s.files[s.readers[r].ino] == payload
  }

  lemma {:induction false} StepKeepsHolding(s: Fs, a: Action, r: nat, key: string, payload: Bytes)
    requires Inv(s) && Enabled(s, a) && Holding(s, r, key, payload) && a != Close(r)
    ensures Holding(Do(s, a), r, key, payload)
  {
    assert ReaderOk(s, s.readers[r]);
    match a {
      case Create(w) =>
        CreateIsUnshared(s, w);
        hide TempName, Stashable, Inv;
      case Write(w, n) =>
        WriteKeepsSealed(s, w, n, s.readers[r].ino);
        hide Temp, Stashable, WriteAt, Inv, ReaderOk;
      case _ => hide Inv, Stashable, Temp, ReaderOk;
    }
  }

  /** `s` follows from `from` by these interleaved steps. */
  ghost predicate Follows(from: Fs, actions: seq<Action>, s: Fs)
    decreases |actions|
  {
    if actions == [] then s == from
    else exists p: Fs :: Follows(from, Front(actions), p) && Steps(p, Last(actions), s)
  }

  lemma {:induction false} HoldingLasts(from: Fs, actions: seq<Action>, s: Fs, r: nat, key: string, payload: Bytes)
    requires Inv(from) && Holding(from, r, key, payload) && Follows(from, actions, s)
    requires Close(r) !in actions
    ensures Inv(s) && Holding(s, r, key, payload)
    decreases |actions|
  {
    hide Inv, Holding, Enabled, Do;
    if actions != [] {
      var p :| Follows(from, Front(actions), p) && Steps(p, Last(actions), s);
      HoldingLasts(from, Front(actions), p, r, key, payload);
      StepKeeps(p, Last(actions));
      StepKeepsHolding(p, Last(actions), r, key, payload);
    }
  }

  lemma {:induction false} OpenHolds(s: Fs, r: nat, key: string)
    requires Inv(s) && Enabled(s, OpenKey(r, key)) && Value(s, key).Some?
    ensures Inv(Do(s, OpenKey(r, key))) && Holding(Do(s, OpenKey(r, key)), r, key, Value(s, key).value)
  {
    StepKeeps(s, OpenKey(r, key));
    hide Inv, Stashable;
  }

  /** An open recall read to its end and closed. */
  ghost predicate Answers(s: Fs, r: nat, key: string, payload: Bytes) {
    && r in s.readers && |s.readers[r].got| <= |payload|
    && var rest := Read(r, |payload| - |s.readers[r].got|);
    && Enabled(s, rest) && Enabled(Do(s, rest), Close(r))
    && Do(Do(s, rest), Close(r)).recalled == s.recalled + {(key, Some(payload))}
  }

  lemma {:induction false} HoldingAnswers(s: Fs, r: nat, key: string, payload: Bytes)
    requires Holding(s, r, key, payload)
    ensures Answers(s, r, key, payload)
  {
    var got := s.readers[r].got;
    var rest := Read(r, |payload| - |got|);
    assert got + payload[|got|..|got| + (|payload| - |got|)] == payload by {
      assert got == payload[..|got|];
    }
    var s' := Do(s, rest);
    assert s'.readers[r] == Reader(key, s.readers[r].ino, payload) && s'.files == s.files;
  }

  /** A recall that opens what the register holds can always be read to its end and then
      closes with exactly that, whoever prunes, rewrites or crashes in between. */
  lemma {:induction false} RecallReadsTheRegister(
    history: seq<Action>, s: Fs, r: nat, key: string, meanwhile: seq<Action>, t: Fs)
    requires Reaches(history, s) && Enabled(s, OpenKey(r, key)) && Value(s, key).Some?
    requires Follows(Do(s, OpenKey(r, key)), meanwhile, t) && Close(r) !in meanwhile
    ensures Answers(t, r, key, Value(s, key).value)
  {
    hide Inv, Reaches, Follows, Value, Enabled, Do, Holding, Answers;
    ReachedHolds(history, s);
    OpenHolds(s, r, key);
    HoldingLasts(Do(s, OpenKey(r, key)), meanwhile, t, r, key, Value(s, key).value);
    HoldingAnswers(t, r, key, Value(s, key).value);
  }

  /** A recall of what the register does not hold is a miss at once. */
  lemma {:induction false} RecallMisses(history: seq<Action>, s: Fs, r: nat, key: string)
    requires Reaches(history, s) && Enabled(s, OpenKey(r, key)) && Value(s, key).None?
    ensures Do(s, OpenKey(r, key)).recalled == s.recalled + {(key, None)}
  {
    ReachedHolds(history, s);
    hide Stashable, WritersOk, NoncesOk, ReadersOk, RecalledOk;
  }

  // ----- a whole write -----

  /** A writer that has just begun is left to itself: it creates, writes all and renames. */
  ghost predicate GetsThrough(begun: Fs, w: nat, key: string, payload: Bytes) {
    && Enabled(begun, Create(w))
    && var made := Do(begun, Create(w));
    && Enabled(made, Write(w, |payload|))
    && var full := Do(made, Write(w, |payload|));
    && Enabled(full, Rename(w)) && Value(Do(full, Rename(w)), key) == Some(payload)
  }

  lemma {:induction false} CreateOpens(s: Fs, w: nat)
    requires Inv(s) && Enabled(s, Create(w))
    ensures
      var (wr, made) := (s.writers[w], Do(s, Create(w)));
      && Inv(made) && w in made.writers && Temp(wr) in made.dir && made.dir[Temp(wr)] in made.files
      && made.writers[w] == wr.(phase := Writing(made.dir[Temp(wr)], 0))
  {
    StepKeeps(s, Create(w));
    hide Inv, Temp;
  }

  lemma {:induction false} WriteFills(s: Fs, w: nat)
    requires Inv(s) && w in s.writers && s.writers[w].phase.Writing? && s.writers[w].phase.done == 0
    requires Temp(s.writers[w]) in s.dir && s.writers[w].phase.ino in s.files
    ensures Enabled(s, Write(w, |s.writers[w].payload|))
    ensures
      var (wr, full) := (s.writers[w], Do(s, Write(w, |s.writers[w].payload|)));
      && Enabled(full, Rename(w)) && Value(Do(full, Rename(w)), wr.key) == Some(wr.payload)
  {
    var wr := s.writers[w];
    var full := Do(s, Write(w, |wr.payload|));
    StepKeeps(s, Write(w, |wr.payload|));
    assert full.writers[w] == wr.(phase := Writing(wr.phase.ino, |wr.payload|)) && full.dir == s.dir;
    assert Temp(full.writers[w]) == Temp(wr);
    hide Inv, TempName, WriteAt, Value;
    StepIsAtomic(full, Rename(w), wr.key);
  }

  /** From any reachable state a writer left to itself gets through: it can create, write
      everything and rename, and then the register holds its payload. */
  lemma {:induction false} WriteGetsThrough(
    history: seq<Action>, s: Fs, w: nat, pid: nat, key: string, payload: Bytes)
    requires Reaches(history, s) && Enabled(s, Begin(w, pid, key, payload))
    ensures GetsThrough(Do(s, Begin(w, pid, key, payload)), w, key, payload)
  {
    hide Inv, GetsThrough, Reaches, Stashable;
    ReachedHolds(history, s);
    var begun := Do(s, Begin(w, pid, key, payload));
    assert begun.writers[w] == Writer(pid, s.counters[pid], key, payload, Named);
    StepKeeps(s, Begin(w, pid, key, payload));
    hide Enabled, Do;
    NamedGetsThrough(begun, w);
  }

  lemma {:induction false} NamedGetsThrough(s: Fs, w: nat)
    requires Inv(s) && w in s.writers && s.writers[w].phase == Named
    ensures GetsThrough(s, w, s.writers[w].key, s.writers[w].payload)
  {
    var wr := s.writers[w];
    assert Enabled(s, Create(w));
    var made := Do(s, Create(w));
    CreateOpens(s, w);
    assert Temp(made.writers[w]) == Temp(wr);
    hide Inv, Do, Enabled, Temp, Value;
    WriteFills(made, w);
  }
}
