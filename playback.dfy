/** The playback process: `parent_main` reads the raw PCM file block by
    block and writes each block to the sound device, recovering at most once
    from a failed write.

    The file is an abstract byte stream of a given length with a read
    cursor; the bytes themselves are not modelled.  The stop flag (set by
    the interrupt handler) and the sound device's answers are oracles: an
    `Env` gives the flag's value at each check of the loop head and the
    results of each write and recover call, as infinite sequences indexed
    by the iteration. */
module Playback {

  const BLOCK_SAMPLING: nat := 512
  const BLOCK_SIZE: nat := 16
  /** The buffer size, BLOCK_SAMPLING * BLOCK_SIZE bytes; also the offset at
      which reading starts, so the first block of the file is skipped. */
  const BUFF_SIZE: nat := BLOCK_SAMPLING * BLOCK_SIZE
  /** Frames handed to every write: buff_size / 2 (16-bit mono samples). */
  const FRAMES_PER_WRITE: nat := BUFF_SIZE / 2

  function Min(a: int, b: int): int {
    if a <= b then a else b
  }

  /** The bytes a read of `want` bytes takes from a stream of `length` bytes
      at `position`: up to `want`, none at or past the end. */
  function Available(length: int, position: int, want: nat): nat {
    if length <= position then 0 else Min(want, length - position)
  }

  /** An open input file: its length and its read cursor. */
  class InputFile {
    const length: nat
    var position: int

    constructor (length: nat)
      ensures this.length == length && position == 0
    {
      this.length := length;
      position := 0;
    }

    /** `ftell` */
    function Tell(): int
      reads this
    {
      position
    }

    /** `fseek(fp, 0, SEEK_END)` */
    method SeekEnd()
      modifies this
      ensures position == length
    {
      position := length;
    }

    /** `fseek(fp, offset, SEEK_SET)`; the cursor may be set past the end. */
    method SeekSet(offset: nat)
      modifies this
      ensures position == offset
    {
      position := offset;
    }

    /** `fread(buf, size, count, fp)`: reads up to size * count bytes, moves
        the cursor past the bytes read, and returns the number of COMPLETE
        items read (a trailing partial item is read but not counted). */
    method Read(size: nat, count: nat) returns (items: nat)
      modifies this
      ensures var bytes := if size == 0 then 0 else Available(length, old(position), size * count);
              position == old(position) + bytes &&
              items == (if size == 0 then 0 else bytes / size)
    {
      if size == 0 {
        items := 0;
      } else {
        var bytes := Available(length, position, size * count);
        position := position + bytes;
        items := bytes / size;
      }
    }
  }

  /** The oracles: the stop flag at the k-th check of the loop head, and the
      results of the k-th write call and of the recover call that may follow
      it (a negative value is an error code). */
  datatype Env = Env(stop: nat -> bool, write: nat -> int, recover: nat -> int)

  /** Whether the k-th write, with its recovery if needed, ended in error. */
  predicate WriteFails(env: Env, k: nat) {
    env.write(k) < 0 && env.recover(k) < 0
  }

  /** Why the loop ended. */
  datatype Exit =
    | Stopped        // the stop flag was set
    | EndOfStream    // the cursor reached the file's length
    | UnexpectedEnd  // a read returned no complete item
    | WriteError     // a write failed and so did its recovery

  /** The outcome of the loop: the value `parent_main` returns (the item
      count of the last read, 0 if none), the number of writes and recover
      calls made, the final cursor and the exit reason. */
  datatype Outcome = Outcome(err: int, writes: nat, recovers: nat, position: int, exit: Exit)

  /** The loop from the cursor `pos`, after `writes` writes and `recovers`
      recover calls, with `err` holding the last read's item count. */
  function Loop(length: int, env: Env, pos: int, writes: nat, recovers: nat, err: int): Outcome
    decreases length - pos
  {
    if env.stop(writes) || length <= pos then
      Outcome(err, writes, recovers, pos, if env.stop(writes) then Stopped else EndOfStream)
    else
      var bytes := Available(length, pos, BLOCK_SIZE * BLOCK_SAMPLING);
      var items := bytes / BLOCK_SIZE;
      if items == 0 then
        Outcome(0, writes, recovers, pos + bytes, UnexpectedEnd)
      else
        var recs := if env.write(writes) < 0 then recovers + 1 else recovers;
        if WriteFails(env, writes) then
          Outcome(items, writes + 1, recs, pos + bytes, WriteError)
        else
          Loop(length, env, pos + bytes, writes + 1, recs, items)
  }

  /** The whole of `parent_main`'s loop on a file of `length` bytes. */
  function Playback(length: int, env: Env): Outcome {
    Loop(length, env, BUFF_SIZE, 0, 0, 0)
  }

  /** `parent_main`: seek to the end to learn the length, start reading one
      buffer in, and loop until the stop flag, the end of the file, an empty
      read or an unrecoverable write.  Returns the last read's item count,
      the frame count handed to each write, and the number of recover calls. */
  method ParentMain(file: InputFile, env: Env) returns (err: int, requested: seq<nat>, recovers: nat)
    modifies file
    ensures var r := Playback(file.length, env);
            err == r.err && |requested| == r.writes && recovers == r.recovers &&
            file.position == r.position
    ensures forall k | 0 <= k < |requested| :: requested[k] == FRAMES_PER_WRITE
  {
    err := 0;
    requested := [];
    recovers := 0;
    var buffSize := BLOCK_SAMPLING * BLOCK_SIZE;
    file.SeekEnd();
    var end := file.Tell();
    file.SeekSet(buffSize);
    while !env.stop(|requested|) && file.Tell() < end
      invariant end == file.length
      invariant Playback(end, env) == Loop(end, env, file.position, |requested|, recovers, err)
      invariant forall k | 0 <= k < |requested| :: requested[k] == FRAMES_PER_WRITE
      decreases end - file.position
    {
      err := file.Read(BLOCK_SIZE, BLOCK_SAMPLING);
      if err == 0 {
        break;
      }
      var w := |requested|;
      var frames := env.write(w);
      requested := requested + [buffSize / 2];
      if frames < 0 {
        frames := env.recover(w);
        recovers := recovers + 1;
      }
      if frames < 0 {
        break;
      }
    }
  }

  // ---------------------------------------------------------------------
  // Properties of the loop

  /** A file of at most one buffer produces no write and no recover call,
      and the function returns 0: reading starts past the first block. */
  lemma ShortFileSilent(length: int, env: Env)
    requires length <= BUFF_SIZE
    ensures Playback(length, env).writes == 0
    ensures Playback(length, env).recovers == 0
    ensures Playback(length, env).err == 0
    ensures Playback(length, env).exit in {Stopped, EndOfStream}
  {
  }

  /** The invariant the loop keeps between iterations: the value to return
      is an item count of one read, zero exactly when nothing was read yet,
      and at most one recover call was made per write. */
  predicate Consistent(writes: nat, recovers: nat, err: int) {
    0 <= err <= BLOCK_SAMPLING && (err == 0 <==> writes == 0) && recovers <= writes
  }

  lemma {:induction false} LoopResult(length: int, env: Env, pos: int, writes: nat, recovers: nat, err: int)
    requires Consistent(writes, recovers, err)
    ensures var r := Loop(length, env, pos, writes, recovers, err);
            0 <= r.err <= BLOCK_SAMPLING && r.recovers <= r.writes &&
            (r.err == 0 <==> r.writes == 0 || r.exit == UnexpectedEnd) &&
            (r.exit == WriteError ==> 0 < r.err)
    decreases length - pos
  {
    if !env.stop(writes) && pos < length {
      var bytes := Available(length, pos, BLOCK_SIZE * BLOCK_SAMPLING);
      var items := bytes / BLOCK_SIZE;
      if items != 0 && !WriteFails(env, writes) {
        var recs := if env.write(writes) < 0 then recovers + 1 else recovers;
        LoopResult(length, env, pos + bytes, writes + 1, recs, items);
      }
    }
  }

  /** The value the loop carries is the item count of the read of the block
      at BUFF_SIZE * writes, the last one read before a write; so, unless
      the final read found no item, the result is that of the last write's
      read. */
  lemma {:induction false} LoopLastRead(length: int, env: Env, pos: int, writes: nat, recovers: nat, err: int)
    requires pos == BUFF_SIZE * (writes + 1)
    requires 0 < writes ==> err == Available(length, BUFF_SIZE * writes, BUFF_SIZE) / BLOCK_SIZE
    ensures var r := Loop(length, env, pos, writes, recovers, err);
            0 < r.writes && r.exit != UnexpectedEnd ==>
              r.err == Available(length, BUFF_SIZE * r.writes, BUFF_SIZE) / BLOCK_SIZE
    decreases length - pos
  {
    if !env.stop(writes) && pos < length {
      var bytes := Available(length, pos, BLOCK_SIZE * BLOCK_SAMPLING);
      var items := bytes / BLOCK_SIZE;
      if items != 0 && !WriteFails(env, writes) {
        var recs := if env.write(writes) < 0 then recovers + 1 else recovers;
        if bytes == BUFF_SIZE {
          LoopLastRead(length, env, pos + bytes, writes + 1, recs, items);
        } else {
          assert pos + bytes == length;
        }
      }
    }
  }

  /** The returned value is the item count of the last read, never a sound
      device error: between 0 and 512, and 0 exactly when nothing was
      written or the last read found no complete item, and otherwise the
      complete items in the block at BUFF_SIZE * writes, whatever ended the
      loop.  Each write is followed by at most one recover call. */
  lemma PlaybackResult(length: int, env: Env)
    ensures var r := Playback(length, env);
            0 <= r.err <= BLOCK_SAMPLING && r.recovers <= r.writes &&
            (r.err == 0 <==> r.writes == 0 || r.exit == UnexpectedEnd) &&
            (r.exit == WriteError ==> 0 < r.err) &&
            (0 < r.writes && r.exit != UnexpectedEnd ==>
               r.err == Available(length, BUFF_SIZE * r.writes, BUFF_SIZE) / BLOCK_SIZE)
  {
    LoopResult(length, env, BUFF_SIZE, 0, 0, 0);
    LoopLastRead(length, env, BUFF_SIZE, 0, 0, 0);
  }

  /** Iterations that completed without stopping the loop. */
  function Completed(r: Outcome): nat {
    if r.exit == WriteError && 0 < r.writes then r.writes - 1 else r.writes
  }

  /** What the loop establishes from a cursor at the start of the
      (writes+1)-th block after the skipped one. */
  predicate ExitJustified(length: int, env: Env, r: Outcome) {
    (forall k | 0 <= k < Completed(r) :: !env.stop(k) && !WriteFails(env, k)) &&
    (0 < r.writes ==> BUFF_SIZE * r.writes + BLOCK_SIZE <= length) &&
    match r.exit
    case Stopped => env.stop(r.writes)
    case EndOfStream => !env.stop(r.writes) && length <= r.position
    case UnexpectedEnd =>
      !env.stop(r.writes) && r.position == length &&
      0 < length - BUFF_SIZE * (r.writes + 1) < BLOCK_SIZE
    case WriteError =>
      0 < r.writes && !env.stop(r.writes - 1) && WriteFails(env, r.writes - 1)
  }

  lemma {:induction false} LoopExit(length: int, env: Env, pos: int, writes: nat, recovers: nat, err: int)
    requires pos == BUFF_SIZE * (writes + 1)
    requires forall k | 0 <= k < writes :: !env.stop(k) && !WriteFails(env, k)
    requires 0 < writes ==> BUFF_SIZE * writes + BLOCK_SIZE <= length
    ensures ExitJustified(length, env, Loop(length, env, pos, writes, recovers, err))
    decreases length - pos
  {
    if !env.stop(writes) && pos < length {
      var bytes := Available(length, pos, BLOCK_SIZE * BLOCK_SAMPLING);
      var items := bytes / BLOCK_SIZE;
      if items != 0 && !WriteFails(env, writes) {
        var recs := if env.write(writes) < 0 then recovers + 1 else recovers;
        if bytes == BUFF_SIZE {
          LoopExit(length, env, pos + bytes, writes + 1, recs, items);
        } else {
          assert pos + bytes == length;
        }
      }
    }
  }

  /** The loop ends on the first of: the stop flag, the cursor at the end,
      a read of no complete item, or a write still failing after its one
      recovery; every earlier iteration passed all of these, and every write
      read at least one complete item from the block that starts
      BUFF_SIZE * (k + 1) bytes in. */
  lemma PlaybackExit(length: int, env: Env)
    ensures ExitJustified(length, env, Playback(length, env))
  {
    LoopExit(length, env, BUFF_SIZE, 0, 0, 0);
  }

  /** The number of writes of an uninterrupted, error-free playback: one per
      block after the first that holds at least one complete item. */
  function FullWrites(length: int): nat {
    if length < BLOCK_SIZE then 0 else (length - BLOCK_SIZE) / BUFF_SIZE
  }

  /** The part of the file after the skipped block that the last block holds. */
  function Tail(length: int): int
    requires BUFF_SIZE < length
  {
    (length - BUFF_SIZE) % BUFF_SIZE
  }

  /** The item count of the last read of an uninterrupted, error-free
      playback. */
  function FullResult(length: int): int {
    if length <= BUFF_SIZE then 0
    else if Tail(length) == 0 then BLOCK_SAMPLING
    else Tail(length) / BLOCK_SIZE
  }

  /** The exit reason of an uninterrupted, error-free playback: a final
      block shorter than one item ends it as an unexpected end. */
  function FullExit(length: int): Exit {
    if BUFF_SIZE < length && 0 < Tail(length) < BLOCK_SIZE then UnexpectedEnd else EndOfStream
  }

  /** A remainder of more than two buffers has the closed forms of the
      remainder one buffer shorter, with one more write. */
  lemma FullShift(rest: int)
    requires 2 * BUFF_SIZE <= rest
    ensures FullWrites(rest) == 1 + FullWrites(rest - BUFF_SIZE)
    ensures FullExit(rest) == FullExit(rest - BUFF_SIZE)
    ensures BUFF_SIZE < rest - BUFF_SIZE ==> FullResult(rest) == FullResult(rest - BUFF_SIZE)
    ensures rest - BUFF_SIZE == BUFF_SIZE ==> FullResult(rest) == BLOCK_SAMPLING
  {
    if BUFF_SIZE < rest - BUFF_SIZE {
      assert Tail(rest) == Tail(rest - BUFF_SIZE);
    }
  }

  /** A remainder of at most two buffers and more than one is read by its
      last block: its tail is what lies past the first buffer. */
  lemma FullLast(rest: int)
    requires BUFF_SIZE < rest < 2 * BUFF_SIZE
    ensures Tail(rest) == rest - BUFF_SIZE
  {
  }

  lemma {:induction false} LoopFull(length: int, env: Env, pos: int, writes: nat, recovers: nat, err: int)
    requires forall k :: !env.stop(k)
    requires forall k :: !WriteFails(env, k)
    requires pos == BUFF_SIZE * (writes + 1)
    ensures var r := Loop(length, env, pos, writes, recovers, err);
            var rest := length - BUFF_SIZE * writes;
            r.writes == writes + FullWrites(rest) &&
            r.exit == FullExit(rest) &&
            r.err == (if rest <= BUFF_SIZE then err else FullResult(rest)) &&
            r.position == (if rest <= BUFF_SIZE then pos else length)
    decreases length - pos
  {
    var rest := length - BUFF_SIZE * writes;
    assert rest == length - pos + BUFF_SIZE;
    if pos < length {
      var bytes := Available(length, pos, BLOCK_SIZE * BLOCK_SAMPLING);
      var items := bytes / BLOCK_SIZE;
      if items != 0 {
        var recs := if env.write(writes) < 0 then recovers + 1 else recovers;
        assert Loop(length, env, pos, writes, recovers, err) ==
               Loop(length, env, pos + bytes, writes + 1, recs, items);
        if bytes == BUFF_SIZE {
          LoopFull(length, env, pos + bytes, writes + 1, recs, items);
          FullShift(rest);
        } else {
          FullLast(rest);
        }
      } else {
        FullLast(rest);
      }
    }
  }

  /** Without a stop request and without an unrecoverable write, playback
      writes every block after the first that holds at least one complete
      item, consumes the file to its end, and returns the item count of the
      last block read (0 when the last block holds less than one item). */
  lemma PlaybackFull(length: int, env: Env)
    requires forall k :: !env.stop(k)
    requires forall k :: !WriteFails(env, k)
    ensures var r := Playback(length, env);
            r.writes == FullWrites(length) &&
            r.exit == FullExit(length) &&
            r.err == FullResult(length) &&
            r.position == (if length <= BUFF_SIZE then BUFF_SIZE else length)
  {
    LoopFull(length, env, BUFF_SIZE, 0, 0, 0);
  }

  /** A file one byte longer than a buffer gives no write at all: the only
      byte read lies past the skipped block and is no complete item. */
  lemma OneBlockPlusOneByte(env: Env)
    requires !env.stop(0)
    ensures Playback(BUFF_SIZE + 1, env).writes == 0
    ensures Playback(BUFF_SIZE + 1, env).exit == UnexpectedEnd
    ensures Playback(BUFF_SIZE + 1, env).err == 0
  {
  }
}
