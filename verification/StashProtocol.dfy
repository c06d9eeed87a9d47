/** The lock-free stash of src/store/replay.rs as a transition system: writers that create a
    temp file, write it piecemeal and rename it, readers that open and read piecemeal, and a
    pruner that may unlink any name at any moment, all interleaved and all free to crash. */
module StashProtocol {
  import opened Base
  import opened Replay

  // ----- names -----

  function TempName(pid: nat, nonce: nat): string {
    "." + Decimal(pid) + "." + Decimal(nonce) + ".tmp"
  }

  /** No temp name is a key's file name. */
  lemma {:induction false} TempIsNoKey(pid: nat, nonce: nat)
    ensures !Stashable(TempName(pid, nonce))
  {
  }

  function FirstDot(s: string): nat {
    if s == "" || s[0] == '.' then 0 else 1 + FirstDot(s[1..])
  }

  lemma {:induction false} FirstDotAfterDigits(a: string, x: string)
    requires forall c <- a :: IsDigit(c)
    ensures FirstDot(a + "." + x) == |a|
  {
    var s := a + "." + x;
    if a != "" {
      assert s[0] == a[0] && a[0] in a;
      assert s[1..] == a[1..] + "." + x;
      FirstDotAfterDigits(a[1..], x);
    }
  }

  /** Digits up to the first dot can be told from what follows it. */
  lemma {:induction false} DotSplits(a: string, b: string, x: string, y: string)
    requires (forall c <- a :: IsDigit(c)) && (forall c <- b :: IsDigit(c))
    requires a + "." + x == b + "." + y
    ensures a == b && x == y
  {
    FirstDotAfterDigits(a, x);
    FirstDotAfterDigits(b, y);
    var s := a + "." + x;
    var t := b + "." + y;
    assert a == s[..|a|] && b == t[..|b|];
    assert x == s[|a| + 1..] && y == t[|b| + 1..];
  }

  lemma {:induction false} AfterLeadingDot(p: string, n: string)
    ensures ("." + p + "." + n + ".tmp")[1..] == p + "." + (n + ".tmp")
    ensures n + ".tmp" == n + "." + "tmp"
  {
  }

  /** Temp names collide only when process and nonce both do. */
  lemma {:induction false} TempNameInjective(p: nat, n: nat, q: nat, m: nat)
    requires TempName(p, n) == TempName(q, m)
    ensures p == q && n == m
  {
    DecimalReadsBack(p);
    DecimalReadsBack(q);
    DecimalReadsBack(n);
    DecimalReadsBack(m);
    hide Decimal, Numeral, IsDigit;
    AfterLeadingDot(Decimal(p), Decimal(n));
    AfterLeadingDot(Decimal(q), Decimal(m));
    DotSplits(Decimal(p), Decimal(q), Decimal(n) + ".tmp", Decimal(m) + ".tmp");
    DotSplits(Decimal(n), Decimal(m), "tmp", "tmp");
    DecimalInjective(p, q);
    DecimalInjective(n, m);
  }

  // ----- the shared file system and its clients -----

  datatype Phase = Named | Writing(ino: nat, done: nat)

  datatype Writer = Writer(pid: nat, nonce: nat, key: string, payload: Bytes, phase: Phase)

  datatype Reader = Reader(key: string, ino: nat, got: Bytes)

  datatype Fs = Fs(
    dir: map<string, nat>,       // names to inodes
    files: map<nat, Bytes>,      // inode contents; an unlinked inode lives on for open handles
    next: nat,                   // the next fresh inode
    counters: map<nat, nat>,     // live processes and their temp-name nonces
    writers: map<nat, Writer>,
    readers: map<nat, Reader>,
    asked: set<(string, Bytes)>, // every (key, payload) a writer was ever called with
    recalled: set<(string, Option<Bytes>)>)

  const EMPTY := Fs(map[], map[], 0, map[], map[], map[], {}, {})

  function Temp(w: Writer): string {
    TempName(w.pid, w.nonce)
  }

  /** Writing at a file position, as a handle's own cursor does. */
  function WriteAt(was: Bytes, at: nat, chunk: Bytes): Bytes {
    (if at <= |was| then was[..at] else was + seq(at - |was|, _ => 0)) + chunk
    + (if at + |chunk| <= |was| then was[at + |chunk|..] else [])
  }

  datatype Action =
    | Spawn(pid: nat)
    | Exit(pid: nat)
    | Begin(w: nat, pid: nat, key: string, payload: Bytes)
    | Create(w: nat)
    | Write(w: nat, n: nat)
    | Rename(w: nat)
    | Fail(w: nat)
    | Unlink(name: string)
    | OpenKey(r: nat, key: string)
    | Read(r: nat, n: nat)
    | Close(r: nat)

  /** Every live process has its own id; a process that exits takes its writers with it. */
  ghost predicate Enabled(s: Fs, a: Action) {
    match a
    case Spawn(pid) => pid !in s.counters
    case Exit(pid) => pid in s.counters
    case Begin(w, pid, key, payload) => w !in s.writers && pid in s.counters && Stashable(key)
    case Create(w) => w in s.writers && s.writers[w].phase == Named
    case Write(w, n) => w in s.writers && s.writers[w].phase.Writing?
                        && s.writers[w].phase.done + n <= |s.writers[w].payload| && s.writers[w].phase.ino in s.files
    case Rename(w) => w in s.writers && s.writers[w].phase.Writing? && s.writers[w].phase.done == |s.writers[w].payload|
    case Fail(w) => w in s.writers
    case Unlink(name) => name in s.dir
    case OpenKey(r, key) => r !in s.readers
    case Read(r, n) => r in s.readers && s.readers[r].ino in s.files
                       && |s.readers[r].got| + n <= |s.files[s.readers[r].ino]|
    case Close(r) => r in s.readers && s.readers[r].ino in s.files && |s.readers[r].got| == |s.files[s.readers[r].ino]|
  }

  ghost function Do(s: Fs, a: Action): Fs
    requires Enabled(s, a)
  {
    match a
    case Spawn(pid) => s.(counters := s.counters[pid := 0])
    case Exit(pid) =>
      s.(counters := s.counters - {pid}, writers := map w | w in s.writers && s.writers[w].pid != pid :: s.writers[w])
    case Begin(w, pid, key, payload) =>
      s.(counters := s.counters[pid := s.counters[pid] + 1],
         writers := s.writers[w := Writer(pid, s.counters[pid], key, payload, Named)],
         asked := s.asked + {(key, payload)})
    case Create(w) =>
      // `File::create` truncates what the name already holds, else makes a fresh file.
      var tmp := Temp(s.writers[w]);
      var ino := if tmp in s.dir then s.dir[tmp] else s.next;
      s.(dir := s.dir[tmp := ino], files := s.files[ino := []],
         next := if tmp in s.dir then s.next else s.next + 1,
         writers := s.writers[w := s.writers[w].(phase := Writing(ino, 0))])
    case Write(w, n) =>
      var wr := s.writers[w];
      var Writing(ino, done) := wr.phase;
      s.(files := s.files[ino := WriteAt(s.files[ino], done, wr.payload[done..done + n])],
         writers := s.writers[w := wr.(phase := Writing(ino, done + n))])
    case Rename(w) =>
      // The name moves atomically; a pruned temp makes the rename fail.
      var wr := s.writers[w];
      s.(dir := if Temp(wr) in s.dir then (s.dir - {Temp(wr)})[wr.key := s.dir[Temp(wr)]] else s.dir,
         writers := s.writers - {w})
    case Fail(w) => s.(writers := s.writers - {w})
    case Unlink(name) => s.(dir := s.dir - {name})
    case OpenKey(r, key) =>
      // A key that is no file name, or names nothing, is a miss.
      if key in s.dir && Stashable(key) then s.(readers := s.readers[r := Reader(key, s.dir[key], [])])
      else s.(recalled := s.recalled + {(key, None)})
    case Read(r, n) =>
      var rd := s.readers[r];
      var f := s.files[rd.ino];
      s.(readers := s.readers[r := rd.(got := rd.got + f[|rd.got|..|rd.got| + n])])
    case Close(r) =>
      s.(recalled := s.recalled + {(s.readers[r].key, Some(s.readers[r].got))}, readers := s.readers - {r})
  }

  // ----- the invariant -----

  /** Inode `ino` is finished: no live writer holds it. */
  ghost predicate Sealed(s: Fs, ino: nat) {
    forall w <- s.writers :: s.writers[w].phase.Writing? ==> s.writers[w].phase.ino != ino
  }

  ghost predicate NamesOk(s: Fs) {
    && (forall n <- s.dir :: s.dir[n] in s.files)
    && (forall i <- s.files :: i < s.next)
    && (forall m, n :: m in s.dir && n in s.dir && s.dir[m] == s.dir[n] ==> m == n)
  }

  predicate SameName(v: Writer, w: Writer) {
    v.pid == w.pid && v.nonce == w.nonce
  }

  predicate SameFile(v: Writer, w: Writer) {
    v.phase.Writing? && w.phase.Writing? && v.phase.ino == w.phase.ino
  }

  ghost predicate NoncesOk(s: Fs) {
    && (forall w <- s.writers :: s.writers[w].pid in s.counters && s.writers[w].nonce < s.counters[s.writers[w].pid])
    && (forall v, w :: v in s.writers && w in s.writers && SameName(s.writers[v], s.writers[w]) ==> v == w)
  }

  /** A live writer's file holds what it has written, under its temp name or none. */
  ghost predicate WriterOk(s: Fs, wr: Writer) {
    && Stashable(wr.key) && (wr.key, wr.payload) in s.asked
    && (wr.phase.Writing? ==>
          && wr.phase.done <= |wr.payload|
          && wr.phase.ino in s.files && s.files[wr.phase.ino] == wr.payload[..wr.phase.done]
          && (forall n <- s.dir :: s.dir[n] == wr.phase.ino ==> n == Temp(wr))
          && (Temp(wr) in s.dir ==> s.dir[Temp(wr)] == wr.phase.ino))
  }

  ghost predicate WritersOk(s: Fs) {
    && (forall w <- s.writers :: WriterOk(s, s.writers[w]))
    && (forall v, w :: v in s.writers && w in s.writers && SameFile(s.writers[v], s.writers[w]) ==> v == w)
  }

  ghost predicate KeysOk(s: Fs) {
    forall n <- s.dir :: Stashable(n) ==> s.dir[n] in s.files && Sealed(s, s.dir[n]) && (n, s.files[s.dir[n]]) in s.asked
  }

  /** An open reader holds a finished file no temp name can reach. */
  ghost predicate ReaderOk(s: Fs, rd: Reader) {
    && rd.ino in s.files && Sealed(s, rd.ino) && (rd.key, s.files[rd.ino]) in s.asked
    && rd.got <= s.files[rd.ino]
    && forall n <- s.dir :: s.dir[n] == rd.ino ==> Stashable(n)
  }

  ghost predicate Inv(s: Fs) {
    NamesOk(s) && NoncesOk(s) && WritersOk(s) && KeysOk(s) && ReadersOk(s) && RecalledOk(s)
  }

  ghost predicate ReadersOk(s: Fs) {
    forall r <- s.readers :: ReaderOk(s, s.readers[r])
  }

  ghost predicate RecalledOk(s: Fs) {
    forall k, p :: (k, Some(p)) in s.recalled ==> (k, p) in s.asked
  }

  lemma {:induction false} TempsDiffer(s: Fs, v: nat, w: nat)
    requires NoncesOk(s) && v in s.writers && w in s.writers && v != w
    ensures Temp(s.writers[v]) != Temp(s.writers[w])
  {
    if Temp(s.writers[v]) == Temp(s.writers[w]) {
      TempNameInjective(s.writers[v].pid, s.writers[v].nonce, s.writers[w].pid, s.writers[w].nonce);
    }
  }

  /** The inode a create hands out is nobody else's: not another name's, not another
      writer's, not an open reader's. */
  ghost predicate Unshared(s: Fs, w: nat, tmp: string, ino: nat) {
    && (forall n <- s.dir :: n != tmp ==> s.dir[n] != ino)
    && (forall v <- s.writers :: v != w && s.writers[v].phase.Writing? ==> s.writers[v].phase.ino != ino)
    && (forall r <- s.readers :: s.readers[r].ino != ino)
  }

  lemma {:induction false} CreateIsUnshared(s: Fs, w: nat)
    requires Inv(s) && Enabled(s, Create(w))
    ensures Unshared(s, w, Temp(s.writers[w]), Do(s, Create(w)).dir[Temp(s.writers[w])])
  {
    var tmp := Temp(s.writers[w]);
    var ino := if tmp in s.dir then s.dir[tmp] else s.next;
    TempIsNoKey(s.writers[w].pid, s.writers[w].nonce);
    hide KeysOk, Temp;
    forall v | v in s.writers && v != w && s.writers[v].phase.Writing?
      ensures s.writers[v].phase.ino != ino
    {
      TempsDiffer(s, v, w);
      assert WriterOk(s, s.writers[v]);
    }
    forall r | r in s.readers
      ensures s.readers[r].ino != ino
    {
      assert ReaderOk(s, s.readers[r]);
    }
  }

  lemma {:induction false} CreateKeepsWriters(s: Fs, w: nat)
    requires Inv(s) && Enabled(s, Create(w))
    ensures WritersOk(Do(s, Create(w)))
  {
    var tmp, s' := Temp(s.writers[w]), Do(s, Create(w));
    CreateIsUnshared(s, w);
    hide KeysOk, ReaderOk, RecalledOk, Temp, Stashable;
    forall v | v in s.writers
      ensures WriterOk(s', s'.writers[v])
    {
      assert WriterOk(s, s.writers[v]);
      if v != w {
        TempsDiffer(s, v, w);
      }
    }
  }

  lemma {:induction false} CreateKeepsKeys(s: Fs, w: nat)
    requires Inv(s) && Enabled(s, Create(w))
    ensures KeysOk(Do(s, Create(w)))
  {
    var tmp, s' := Temp(s.writers[w]), Do(s, Create(w));
    CreateIsUnshared(s, w);
    TempIsNoKey(s.writers[w].pid, s.writers[w].nonce);
    hide WritersOk, NoncesOk, ReadersOk, RecalledOk, Temp, Stashable;
    forall n | n in s'.dir && Stashable(n)
      ensures s'.dir[n] in s'.files && Sealed(s', s'.dir[n]) && (n, s'.files[s'.dir[n]]) in s'.asked
    {
      assert Sealed(s, s.dir[n]);
    }
  }

  lemma {:induction false} CreateKeepsReaders(s: Fs, w: nat)
    requires Inv(s) && Enabled(s, Create(w))
    ensures ReadersOk(Do(s, Create(w)))
  {
    var s' := Do(s, Create(w));
    CreateIsUnshared(s, w);
    TempIsNoKey(s.writers[w].pid, s.writers[w].nonce);
    hide WritersOk, NoncesOk, KeysOk, Temp, Stashable;
    forall r | r in s'.readers
      ensures ReaderOk(s', s'.readers[r])
    {
      assert ReaderOk(s, s.readers[r]);
    }
  }

  lemma {:induction false} CreateKeeps(s: Fs, w: nat)
    requires Inv(s) && Enabled(s, Create(w))
    ensures Inv(Do(s, Create(w)))
  {
    CreateIsUnshared(s, w);
    CreateKeepsWriters(s, w);
    CreateKeepsKeys(s, w);
    CreateKeepsReaders(s, w);
    hide WritersOk, KeysOk, ReadersOk, Temp, Stashable;
  }

  lemma {:induction false} WriteKeepsOther(s: Fs, w: nat, n: nat, v: nat)
    requires WritersOk(s) && Enabled(s, Write(w, n)) && v in s.writers && v != w
    ensures WriterOk(Do(s, Write(w, n)), s.writers[v])
  {
    hide Temp, Stashable, WriteAt;
    assert WriterOk(s, s.writers[v]);
    assert !SameFile(s.writers[v], s.writers[w]);
  }

  lemma {:induction false} WriteKeepsOwn(s: Fs, w: nat, n: nat)
    requires WritersOk(s) && Enabled(s, Write(w, n))
    ensures WriterOk(Do(s, Write(w, n)), Do(s, Write(w, n)).writers[w])
  {
    hide TempName, Stashable;
    var wr, s' := s.writers[w], Do(s, Write(w, n));
    assert WriterOk(s, wr);
    assert s'.files[wr.phase.ino] == wr.payload[..wr.phase.done + n];
  }

  lemma {:induction false} WriteKeepsWriters(s: Fs, w: nat, n: nat)
    requires WritersOk(s) && Enabled(s, Write(w, n))
    ensures WritersOk(Do(s, Write(w, n)))
  {
    hide WriterOk, WriteAt;
    var s' := Do(s, Write(w, n));
    WriteKeepsOwn(s, w, n);
    forall v | v in s'.writers
      ensures WriterOk(s', s'.writers[v])
    {
      if v != w {
        WriteKeepsOther(s, w, n, v);
      }
    }
    forall u, v | u in s'.writers && v in s'.writers && SameFile(s'.writers[u], s'.writers[v])
      ensures u == v
    {
      assert SameFile(s.writers[u], s.writers[v]);
    }
  }

  lemma {:induction false} WriteKeepsSealed(s: Fs, w: nat, n: nat, ino: nat)
    requires Enabled(s, Write(w, n)) && Sealed(s, ino)
    ensures Sealed(Do(s, Write(w, n)), ino) && ino != s.writers[w].phase.ino
  {
    hide WriteAt;
  }

  lemma {:induction false} WriteKeeps(s: Fs, w: nat, n: nat)
    requires Inv(s) && Enabled(s, Write(w, n))
    ensures Inv(Do(s, Write(w, n)))
  {
    var s' := Do(s, Write(w, n));
    WriteKeepsWriters(s, w, n);
    hide WritersOk, Temp, WriteAt, Stashable;
    forall m | m in s'.dir && Stashable(m)
      ensures s'.dir[m] in s'.files && Sealed(s', s'.dir[m]) && (m, s'.files[s'.dir[m]]) in s'.asked
    {
      WriteKeepsSealed(s, w, n, s.dir[m]);
    }
    forall r | r in s'.readers
      ensures ReaderOk(s', s'.readers[r])
    {
      assert ReaderOk(s, s.readers[r]);
      WriteKeepsSealed(s, w, n, s.readers[r].ino);
    }
    hide ReaderOk, Sealed;
  }

  predicate Holds(s: Fs, key: string, payload: Bytes) {
    key in s.dir && s.dir[key] in s.files && s.files[s.dir[key]] == payload
  }

  lemma {:induction false} RenameKeeps(s: Fs, w: nat)
    requires Inv(s) && Enabled(s, Rename(w))
    ensures Inv(Do(s, Rename(w)))
    ensures Temp(s.writers[w]) in s.dir ==>
      var s' := Do(s, Rename(w));
      Holds(s', s.writers[w].key, s.writers[w].payload)
  {
    var wr := s.writers[w];
    var s' := Do(s, Rename(w));
    TempIsNoKey(wr.pid, wr.nonce);
    assert WriterOk(s, wr) && wr.payload[..|wr.payload|] == wr.payload;
    forall v | v in s'.writers
      ensures WriterOk(s', s'.writers[v])
    {
      TempsDiffer(s, v, w);
      TempIsNoKey(s.writers[v].pid, s.writers[v].nonce);
      assert WriterOk(s, s.writers[v]);
    }
    forall n | n in s'.dir && Stashable(n)
      ensures Sealed(s', s'.dir[n]) && (n, s'.files[s'.dir[n]]) in s'.asked
    {
      if n == wr.key && Temp(wr) in s.dir {
        assert s'.dir[n] == wr.phase.ino;
      } else {
        assert n in s.dir && Sealed(s, s.dir[n]);
      }
    }
    forall r | r in s'.readers
      ensures ReaderOk(s', s'.readers[r])
    {
      assert ReaderOk(s, s.readers[r]);
    }
  }

  /** No name, content or writer is new; readers may differ. */
  ghost predicate NothingNew(s: Fs, s': Fs) {
    && s'.files == s.files && s'.next == s.next && s'.asked == s.asked
    && (forall n <- s'.dir :: n in s.dir && s'.dir[n] == s.dir[n])
    && (forall v <- s'.writers :: v in s.writers && s'.writers[v] == s.writers[v])
    && (forall v <- s'.writers :: s.writers[v].pid in s'.counters)
    && (forall pid <- s.counters :: pid in s'.counters ==> s'.counters[pid] == s.counters[pid])
  }

  lemma {:induction false} SealedTransfers(s: Fs, s': Fs, ino: nat)
    requires NothingNew(s, s') && Sealed(s, ino)
    ensures Sealed(s', ino)
  {
  }

  lemma {:induction false} WriterTransfers(s: Fs, s': Fs, wr: Writer)
    requires NothingNew(s, s') && WriterOk(s, wr)
    ensures WriterOk(s', wr)
  {
    hide Temp, Stashable;
  }

  lemma {:induction false} ReaderTransfers(s: Fs, s': Fs, rd: Reader)
    requires NothingNew(s, s') && ReaderOk(s, rd)
    ensures ReaderOk(s', rd)
  {
    SealedTransfers(s, s', rd.ino);
    hide Sealed, Stashable;
  }

  lemma {:induction false} NoncesTransfer(s: Fs, s': Fs)
    requires NoncesOk(s) && NothingNew(s, s')
    ensures NoncesOk(s')
  {
    forall v, w | v in s'.writers && w in s'.writers && SameName(s'.writers[v], s'.writers[w])
      ensures v == w
    {
      assert SameName(s.writers[v], s.writers[w]);
    }
  }

  lemma {:induction false} WritersTransfer(s: Fs, s': Fs)
    requires NoncesOk(s) && WritersOk(s) && NothingNew(s, s')
    ensures NoncesOk(s') && WritersOk(s')
  {
    NoncesTransfer(s, s');
    hide WriterOk, NoncesOk;
    forall v | v in s'.writers
      ensures WriterOk(s', s'.writers[v])
    {
      WriterTransfers(s, s', s.writers[v]);
    }
    forall v, w | v in s'.writers && w in s'.writers && SameFile(s'.writers[v], s'.writers[w])
      ensures v == w
    {
      assert SameFile(s.writers[v], s.writers[w]);
    }
  }

  lemma {:induction false} KeysTransfer(s: Fs, s': Fs)
    requires NamesOk(s) && KeysOk(s) && NothingNew(s, s')
    ensures NamesOk(s') && KeysOk(s')
  {
    forall n | n in s'.dir && Stashable(n)
      ensures Sealed(s', s'.dir[n])
    {
      SealedTransfers(s, s', s.dir[n]);
    }
    hide Sealed, Stashable;
  }

  lemma {:induction false} ReadersTransfer(s: Fs, s': Fs)
    requires ReadersOk(s) && NothingNew(s, s') && s'.readers == s.readers
    ensures ReadersOk(s')
  {
    forall r | r in s'.readers
      ensures ReaderOk(s', s'.readers[r])
    {
      ReaderTransfers(s, s', s.readers[r]);
    }
    hide ReaderOk, NothingNew;
  }

  /** A pruned name, a writer or a whole process that dies, or a process that starts,
      disturbs nobody. */
  lemma {:induction false} LossKeeps(s: Fs, a: Action)
    requires Inv(s) && Enabled(s, a) && (a.Exit? || a.Fail? || a.Spawn? || a.Unlink?)
    ensures Inv(Do(s, a))
  {
    var s' := Do(s, a);
    assert NothingNew(s, s') && s'.readers == s.readers && s'.recalled == s.recalled by {
      hide WritersOk, KeysOk, NamesOk, ReadersOk, RecalledOk;
    }
    assert RecalledOk(s') by {
      hide WritersOk, KeysOk, NamesOk, ReadersOk, NoncesOk, Enabled, Do;
    }
    hide WritersOk, KeysOk, NamesOk, ReadersOk, RecalledOk, NoncesOk, Enabled, Do, NothingNew;
    WritersTransfer(s, s');
    KeysTransfer(s, s');
    ReadersTransfer(s, s');
  }

  lemma {:induction false} BeginKeeps(s: Fs, w: nat, pid: nat, key: string, payload: Bytes)
    requires Inv(s) && Enabled(s, Begin(w, pid, key, payload))
    ensures Inv(Do(s, Begin(w, pid, key, payload)))
  {
    var s' := Do(s, Begin(w, pid, key, payload));
    forall v | v in s.writers
      ensures WriterOk(s', s'.writers[v])
    {
      assert WriterOk(s, s.writers[v]);
    }
    forall n | n in s'.dir && Stashable(n)
      ensures Sealed(s', s'.dir[n])
    {
      assert Sealed(s, s.dir[n]);
    }
    forall r | r in s'.readers
      ensures ReaderOk(s', s'.readers[r])
    {
      assert ReaderOk(s, s.readers[r]);
    }
  }

  lemma {:induction false} KeyIsReadable(s: Fs, key: string)
    requires Inv(s) && key in s.dir && Stashable(key)
    ensures ReaderOk(s, Reader(key, s.dir[key], []))
  {
    hide WritersOk, NoncesOk, ReadersOk, RecalledOk;
  }

  /** All readers but `r`, which may be new, advanced or gone, are as they were. */
  ghost predicate OneReader(s: Fs, s': Fs, r: nat) {
    && NothingNew(s, s') && s'.readers - {r} == s.readers - {r}
    && (r in s'.readers ==> ReaderOk(s, s'.readers[r]))
    && RecalledOk(s')
  }

  lemma {:induction false} OneReaderKeeps(s: Fs, s': Fs, r: nat)
    requires Inv(s) && OneReader(s, s', r)
    ensures Inv(s')
  {
    WritersTransfer(s, s');
    KeysTransfer(s, s');
    hide WritersOk, NoncesOk, KeysOk, NamesOk, RecalledOk, ReaderOk, NothingNew;
    forall q | q in s'.readers
      ensures ReaderOk(s', s'.readers[q])
    {
      assert q != r ==> q in (s'.readers - {r}) && s'.readers[q] == (s.readers - {r})[q];
      ReaderTransfers(s, s', s'.readers[q]);
    }
  }

  lemma {:induction false} OpenKeeps(s: Fs, r: nat, key: string)
    requires Inv(s) && Enabled(s, OpenKey(r, key))
    ensures Inv(Do(s, OpenKey(r, key)))
  {
    var s' := Do(s, OpenKey(r, key));
    if key in s.dir && Stashable(key) {
      KeyIsReadable(s, key);
    }
    assert OneReader(s, s', r) by {
      hide WritersOk, KeysOk, NamesOk, ReaderOk, ReadersOk, Stashable;
    }
    OneReaderKeeps(s, s', r);
    hide Inv, Do, Enabled, OneReader;
  }

  lemma {:induction false} ReadKeeps(s: Fs, r: nat, n: nat)
    requires Inv(s) && Enabled(s, Read(r, n))
    ensures Inv(Do(s, Read(r, n)))
  {
    var s' := Do(s, Read(r, n));
    assert OneReader(s, s', r) by {
      hide WritersOk, KeysOk, NamesOk;
      assert ReaderOk(s, s.readers[r]);
      assert ReaderOk(s, s'.readers[r]);
      hide ReaderOk, ReadersOk;
    }
    OneReaderKeeps(s, s', r);
    hide Inv, Do, Enabled, OneReader;
  }

  lemma {:induction false} CloseKeeps(s: Fs, r: nat)
    requires Inv(s) && Enabled(s, Close(r))
    ensures Inv(Do(s, Close(r)))
  {
    var s' := Do(s, Close(r));
    assert OneReader(s, s', r) by {
      hide WritersOk, KeysOk, NamesOk;
      var rd := s.readers[r];
      assert ReaderOk(s, rd);
      assert rd.got == s.files[rd.ino][..|rd.got|] == s.files[rd.ino];
      hide ReaderOk, ReadersOk;
    }
    OneReaderKeeps(s, s', r);
    hide Inv, Do, Enabled, OneReader;
  }

  lemma {:induction false} StepKeeps(s: Fs, a: Action)
    requires Inv(s) && Enabled(s, a)
    ensures Inv(Do(s, a))
  {
    hide Inv, Do, Enabled;
    match a
    case Create(w) => CreateKeeps(s, w);
    case Write(w, n) => WriteKeeps(s, w, n);
    case Rename(w) => RenameKeeps(s, w);
    case Begin(w, pid, key, payload) => BeginKeeps(s, w, pid, key, payload);
    case Spawn(_) => LossKeeps(s, a);
    case Exit(_) => LossKeeps(s, a);
    case Fail(_) => LossKeeps(s, a);
    case Unlink(_) => LossKeeps(s, a);
    case OpenKey(r, key) => OpenKeeps(s, r, key);
    case Read(r, n) => ReadKeeps(s, r, n);
    case Close(r) => CloseKeeps(s, r);
  }

  // ----- every run -----

  ghost predicate Steps(p: Fs, a: Action, s: Fs) {
    Enabled(p, a) && s == Do(p, a)
  }

  /** `s` is reached from the empty stash by these interleaved steps. */
  ghost predicate Reaches(actions: seq<Action>, s: Fs)
    decreases |actions|
  {
    if actions == [] then s == EMPTY
    else exists p: Fs :: Reaches(Front(actions), p) && Steps(p, Last(actions), s)
  }

  lemma {:induction false} ReachedHolds(actions: seq<Action>, s: Fs)
    requires Reaches(actions, s)
    ensures Inv(s)
    decreases |actions|
  {
    if actions != [] {
      var p :| Reaches(Front(actions), p) && Steps(p, Last(actions), s);
      ReachedHolds(Front(actions), p);
      StepKeeps(p, Last(actions));
    }
  }

  /** Under every interleaving a finished recall is a miss or one whole payload that some
      writer was called with for that very key. */
  lemma {:induction false} RecallIsWhole(actions: seq<Action>, s: Fs, key: string, r: Option<Bytes>)
    requires Reaches(actions, s) && (key, r) in s.recalled
    ensures r.None? || (key, r.value) in s.asked
  {
    ReachedHolds(actions, s);
  }

  /** Live writers never share a temp file, and no temp file is a key. */
  lemma {:induction false} TempsNeverCollide(actions: seq<Action>, s: Fs, v: nat, w: nat)
    requires Reaches(actions, s) && v in s.writers && w in s.writers && v != w
    ensures Temp(s.writers[v]) != Temp(s.writers[w]) && !Stashable(Temp(s.writers[v]))
  {
    ReachedHolds(actions, s);
    TempsDiffer(s, v, w);
    TempIsNoKey(s.writers[v].pid, s.writers[v].nonce);
  }

  /** Right after a rename that found its temp file, the key holds the writer's payload. */
  lemma {:induction false} RenamePublishes(actions: seq<Action>, s: Fs, w: nat)
    requires Reaches(actions, s) && Enabled(s, Rename(w)) && Temp(s.writers[w]) in s.dir
    ensures
      var s' := Do(s, Rename(w));
      Holds(s', s.writers[w].key, s.writers[w].payload)
  {
    ReachedHolds(actions, s);
    RenameKeeps(s, w);
  }
}
