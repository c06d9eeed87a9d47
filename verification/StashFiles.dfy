/** The replay stash of src/store/replay.rs as one process uses it: file names, the temp file
    and rename of a write, the age-based eviction after it, and the recall. */
module StashFiles {
  import opened Base
  import opened Replay
  import opened StashProtocol

  const MAX_AGE_SECS: nat := 7 * 24 * 60 * 60

  /** A file and its modification time in unix seconds, when its metadata can be read; a time
      before the epoch is negative. */
  datatype Entry = Entry(payload: Bytes, modified: Option<int>)

  type Dir = map<string, Entry>

  /** Older than the horizon; unreadable metadata, the future and the past of the epoch fold
      to what saturating arithmetic makes of them. */
  predicate Stale(e: Entry, now: nat) {
    e.modified.Some? && (var secs := if e.modified.value < 0 then 0 else e.modified.value; now - secs > MAX_AGE_SECS)
  }

  function Kept(dir: Dir, now: nat): Dir {
    map n | n in dir && !Stale(dir[n], now) :: dir[n]
  }

  function Look(dir: Dir, key: string): Option<Bytes> {
    if Stashable(key) && key in dir then Some(dir[key].payload) else None
  }

  class ReplayStash {
    const pid: nat
    var dir: Dir
    var nonce: nat

    constructor (pid: nat, dir: Dir)
      ensures this.pid == pid && this.dir == dir && nonce == 0
    {
      this.pid, this.dir, nonce := pid, dir, 0;
    }

    /** Unlink every stale entry, temp files of dead writers included. */
    method Prune(now: nat)
      modifies this`dir
      ensures dir == Kept(old(dir), now)
    {
      var names := dir.Keys;
      while names != {}
        invariant names <= dir.Keys <= old(dir).Keys
        invariant forall n <- dir :: dir[n] == old(dir)[n]
        invariant forall n <- old(dir) :: n !in names ==> (n in dir <==> !Stale(old(dir)[n], now))
        decreases names
      {
        var n :| n in names;
        if Stale(dir[n], now) {
          dir := dir - {n};
        }
        names := names - {n};
      }
    }

    /** Write under a fresh temp name, rename onto the key, then evict; a key that cannot be a
        file name is refused. `wrote` is the time the file system stamps the file with. A recall
        that follows finds the new payload unless the injected clock already calls the fresh file
        stale, and under every other key what it found before unless that entry is stale. */
    method Stash(key: string, payload: Bytes, wrote: Option<int>, now: nat) returns (ok: bool)
      modifies this`dir, this`nonce
      ensures ok == Stashable(key)
      ensures !ok ==> dir == old(dir) && nonce == old(nonce)
      ensures ok ==> nonce == old(nonce) + 1
      ensures ok ==> dir == Kept((old(dir) - {TempName(pid, old(nonce))})[key := Entry(payload, wrote)], now)
      ensures ok ==> Look(dir, key) == if Stale(Entry(payload, wrote), now) then None else Some(payload)
      ensures ok ==> forall other :: other != key ==>
        Look(dir, other) == if other in old(dir) && Stale(old(dir)[other], now) then None else Look(old(dir), other)
      ensures !ok ==> Look(dir, key) == None
    {
      if !Stashable(key) {
        return false;
      }
      var tmp := TempName(pid, nonce);
      nonce := nonce + 1;
      dir := dir[tmp := Entry([], wrote)];
      dir := dir[tmp := Entry(payload, wrote)];
      TempIsNoKey(pid, nonce - 1);
      var entry := dir[tmp];
      dir := (dir - {tmp})[key := entry];
      assert dir == (old(dir) - {tmp})[key := Entry(payload, wrote)];
      Prune(now);
      ok := true;
      hide Look, Stale, TempName, Kept, Stashable;
      forall other: string
        ensures Look(dir, key) == if Stale(Entry(payload, wrote), now) then None else Some(payload)
        ensures other != key ==>
          Look(dir, other) == if other in old(dir) && Stale(old(dir)[other], now) then None else Look(old(dir), other)
      {
        StashThenRecall(old(dir), pid, nonce - 1, key, payload, wrote, now, other);
      }
    }

    /** The bytes under a key, a miss when it has none or can have none. */
    method Recall(key: string) returns (payload: Option<Bytes>)
      ensures payload == Look(dir, key)
    {
      payload := if Stashable(key) && key in dir then Some(dir[key].payload) else None;
    }
  }

  /** What a write leaves to recall: its own payload unless the injected clock already calls
      the fresh file stale, and every other key's unless that entry is. */
  lemma {:induction false} StashThenRecall(
    dir: Dir, pid: nat, nonce: nat, key: string, payload: Bytes, wrote: Option<int>, now: nat, other: string)
    requires Stashable(key)
    ensures
      var after := Kept((dir - {TempName(pid, nonce)})[key := Entry(payload, wrote)], now);
      && Look(after, key) == (if Stale(Entry(payload, wrote), now) then None else Some(payload))
      && (other != key ==>
            Look(after, other) == if other in dir && Stale(dir[other], now) then None else Look(dir, other))
  {
    if Stashable(other) && other == TempName(pid, nonce) {
      TempIsNoKey(pid, nonce);
    }
    hide TempName;
  }

  /** What ages a file out: more than seven days between its stamp and the clock. One stamped before
      the epoch counts as written at the epoch, so any clock past the horizon evicts it; one stamped
      in the future, or whose stamp cannot be read, is never evicted. */
  lemma {:induction false} OddTimesFold(payload: Bytes, modified: int, now: nat)
    ensures modified < 0 ==> (Stale(Entry(payload, Some(modified)), now) <==> now > 604800)
    ensures 0 <= modified ==> (Stale(Entry(payload, Some(modified)), now) <==> now > modified + 604800)
    ensures !Stale(Entry(payload, None), now)
  {
  }
}
