# fade_audio, modelled in Dafny

`fade_audio.c` plays a raw PCM file (16-bit little-endian, mono, 16000 Hz)
to the default ALSA device. At the same time, a forked control process lets the
operator hold the key `f` to ramp the master volume up toward a +1 dB ceiling
(1.26 times the base volume). When the key is released, the volume ramps back
down toward the base. This project models the integer bookkeeping of the two
processes and proves properties of it:

- `ramp.dfy`, module `Ramp`: the two ramp steps, `volume_fader_up` and
  `volume_fader_down`, as pure functions of the base and current volume.
- `control.dfy`, module `Control`: the control process state as a class
  `Fader`. It holds the base volume, the current volume and the values set on
  the mixer. Its methods are the two steps done in place, one tick of
  `child_main`'s loop and the whole loop over a sequence of keys. The lemmas
  are about runs of ticks.
- `playback.dfy`, module `Playback`: `parent_main`'s read/write loop as the
  method `ParentMain` over an `InputFile` (a length and a read cursor). It is
  proved equal to the specification function `Playback`. The lemmas about
  `Playback` cover termination, the number and size of writes, and the value
  returned.

Arithmetic. `base_volume * 1.26` is a C `double`. Here it is the exact rational
base · 126/100 (`Ramp.Ceiling`). Storing the stepped volume back into a `long`
truncates toward zero (`Ramp.Trunc`). This is an abstraction of IEEE `double`
arithmetic. The `double` nearest to 1.26 is slightly above 126/100, so for
volumes right at a rounding boundary the C program can differ from the model
by one unit.

Inputs the model does not compute:

- The control loop takes one `Key` per tick. `NoKey` stands for `getch`
  returning ERR when no key is waiting. The loop ends when the keys run out,
  which stands for the stop flag being seen at the loop head.
- The playback loop takes an `Env` of three oracles, each an infinite sequence
  written as a function from the iteration index:
  - the stop flag at each check of the loop head;
  - the result of each `snd_pcm_writei`;
  - the result of the `snd_pcm_recover` that may follow it.
- The base volume is a parameter. In the source it is read from the mixer.

Behaviour where the code and the design documentation disagree (the model
follows the code):

- The design claims the volume always stays in [base, 1.26·base], and that idle
  ramping reaches the base "without undershooting". The down step can overshoot
  below the base: `Ramp.DownOvershootsIff` shows that one step from base + 1
  lands below the base whenever base ≥ 81. The proved range is
  (base − 0.013·base − 1, 1.26·base] (`Control.Reachable`).
- The design claims repeated up steps converge to the ceiling. Truncation makes
  them stall as soon as the gap is under 10 (`Ramp.UpStallsIff`,
  `Control.HeldStalls`). From a positive base the ceiling itself is never
  reached.
- The design asks whether the key polarity is inverted. It is not: the code
  ramps up while `f` is read and down otherwise, which matches the on-screen
  prompt.
- The design describes a file of one block plus one byte as giving one
  full-block write. Because reading starts one block in, the code makes no write
  for that file at all, and the loop ends on an unexpected end of file
  (`Playback.OneBlockPlusOneByte`).

## Model

| member | source | states |
|---|---|---|
| `Ramp.Trunc` | fade_audio.c:122 | the stored volume is the integer part of the `double` value, rounded toward zero: within one below a non-negative value, within one above a negative one |
| `Ramp.UpStep` | fade_audio.c:121-122 | at or above the ceiling the volume is unchanged; the up step never lowers the volume; from a non-negative volume below the ceiling the result stays strictly below the ceiling |
| `Ramp.DownStep` | fade_audio.c:137-138 | at or below the base the volume is unchanged; from at most the ceiling it never rises, and from (base, ceiling) it falls strictly; from (base, ceiling] it stays above base − 0.013·base − 1; above the ceiling the sign of the subtracted term flips: a non-negative volume never falls, and rises once it is at least 20 above the ceiling (a smaller rise is cancelled by truncation) |
| `Ramp.UpStallsIff` | fade_audio.c:121-122 | from a non-negative volume, an up step changes nothing exactly when the volume is less than 10 below the ceiling (truncation cancels the step) |
| `Ramp.DownFixedIff` | fade_audio.c:137-138 | at or below the ceiling, a down step changes nothing exactly when the volume is at most the base or exactly on the ceiling |
| `Ramp.DownOvershootsIff` | fade_audio.c:137-138 | for a non-negative base, one down step from base + 1 lands below the base exactly when base ≥ 81 |
| `Control.NextVolume` | fade_audio.c:163-166 | the tick rule: `f` selects the up step, any other key or no key the down step; a tick whose selected step fails its guard changes nothing, an `f` tick never lowers the volume, any other tick never raises a volume at or below the ceiling |
| `Control.Run` | fade_audio.c:162-174 | defines the volume after one tick per key from a start volume (no contract of its own; the lemmas below state its properties) |
| `Control.MixerWrites` | fade_audio.c:162-174 | the values a run of ticks sets on the mixer, in order: at most one per tick, and the last one is the volume the run ends at |
| `Control.Fader.constructor` | fade_audio.c:156-160 | the current volume starts at the base volume and nothing has been written to the mixer |
| `Control.Fader.FadeUp` | fade_audio.c:120-127 | the new volume is the up step of the old one; the mixer gets exactly the new volume when the guard passes and no write otherwise |
| `Control.Fader.FadeDown` | fade_audio.c:135-143 | the new volume is the down step of the old one; the mixer gets exactly the new volume when the guard passes and no write otherwise |
| `Control.Fader.Tick` | fade_audio.c:163-167 | a tick whose key is `f` applies the up step; any other key, or no key, applies the down step; the mixer is written only when that step's guard passes |
| `Control.Fader.Loop` | fade_audio.c:162-174 | after the loop the volume is the run of ticks over the keys, and the mixer has received exactly the values written by the run's steps, in order |
| `Control.RunSplit` | fade_audio.c:162-174 | a run of ticks splits at any point into the run up to that point followed by the run of the remaining keys |
| `Control.HeldNeverLowers` | fade_audio.c:165-166 | holding `f` never ends below the starting volume |
| `Control.HeldMonotone` | fade_audio.c:165-166 | along a run of `f` ticks the volume is non-decreasing: each later prefix ends at least as high as each earlier one |
| `Control.IdleNeverRaises` | fade_audio.c:163-164 | without `f`, from at most the ceiling, the volume never ends above its start |
| `Control.IdleMonotone` | fade_audio.c:163-164 | along a run of non-`f` ticks from at most the ceiling the volume is non-increasing |
| `Control.TickKeepsBounded` | fade_audio.c:160-166 | for a non-negative base, one tick keeps the volume above base − 0.013·base − 1 and at most the ceiling, and strictly below it for a positive base |
| `Control.RunKeepsBounded` | fade_audio.c:160-166 | for a non-negative base, every run of ticks from a bounded volume ends bounded |
| `Control.Reachable` | fade_audio.c:160-166 | starting from the base volume with base ≥ 0, every sequence of ticks keeps the volume at most base·1.26, above base − 0.013·base − 1, and non-negative |
| `Control.MixerWritesBounded` | fade_audio.c:123 | every value a run of ticks from a bounded volume sets on the mixer is bounded |
| `Control.IdleDescends` | fade_audio.c:163-164 | without `f`, from below the ceiling, after n ticks the volume is at most the base or at least n below its start |
| `Control.IdleSettles` | fade_audio.c:163-164 | without `f`, from below the ceiling, the volume is at most the base after start − base ticks |
| `Control.HeldClimbs` | fade_audio.c:165-166 | holding `f` from a non-negative volume, after n ticks the volume is within 10 of the ceiling or at least n above its start |
| `Control.HeldStalls` | fade_audio.c:121-122 | holding `f` for at least (ceiling − start) ticks brings the volume within 10 of the ceiling, where a further up step changes nothing |
| `Playback.InputFile.constructor` | fade_audio.c:195 | an opened file has its length and a cursor at offset 0 |
| `Playback.InputFile.SeekEnd` | fade_audio.c:197-198 | seeking to the end puts the cursor at the file's length |
| `Playback.InputFile.SeekSet` | fade_audio.c:199 | seeking sets the cursor to the given offset, even past the end |
| `Playback.InputFile.Read` | fade_audio.c:203 | a read takes up to size·count bytes, none at or past the end, moves the cursor past them and returns the number of complete items |
| `Playback.Loop` | fade_audio.c:201-215 | defines the loop from a cursor and a count of writes made: the stop and end tests, the read of up to 512 items of 16 bytes, the stop on zero items, the write with at most one recovery, the stop on a write still negative (no contract of its own; the lemmas below state its properties) |
| `Playback.Playback` | fade_audio.c:199-220 | defines the whole loop: the cursor starts at 8192, no write made yet, result 0 (no contract of its own; the lemmas below state its properties) |
| `Playback.ParentMain` | fade_audio.c:186-221 | the returned value, the number of writes, the number of recover calls and the final cursor are those of `Playback`; every write hands the sink exactly buff_size/2 = 4096 frames |
| `Playback.ShortFileSilent` | fade_audio.c:199-201 | a file of at most 8192 bytes gives no write and no recover call, and the function returns 0 |
| `Playback.LoopResult` | fade_audio.c:203-220 | from any consistent loop state, the result is a read's item count in [0, 512], zero exactly when nothing was written or the last read found no item, with at most one recover call per write |
| `Playback.LoopLastRead` | fade_audio.c:203-220 | from the start of a block, unless the last read found no item, the result is the number of complete items in the block at 8192·writes, the block the last write was fed from |
| `Playback.PlaybackResult` | fade_audio.c:203-220 | `parent_main` returns the item count of the last read, never the sink error: in [0, 512], zero exactly when nothing was written or the last read found no complete item, positive after an unrecoverable write, and after any write (unless the final read found no item) exactly the complete items of the block at 8192·writes, whether the loop ended on the stop flag, the end of the file or a write error; recover calls never outnumber writes |
| `Playback.LoopExit` | fade_audio.c:201-214 | from the start of a block, the loop's exit reason is justified and every earlier iteration passed all the exit tests |
| `Playback.PlaybackExit` | fade_audio.c:201-214 | the loop ends on the stop flag, the cursor at the end, a read of zero items (fewer than 16 bytes left), or a write still negative after its one recovery; every earlier iteration passed all four; reading k starts at offset 8192·(k+1), so the last write's block held at least 16 bytes |
| `Playback.LoopFull` | fade_audio.c:201-215 | from the start of a block, with no stop and no unrecoverable write, the loop's writes, result, exit and cursor are the closed forms of the remaining length |
| `Playback.PlaybackFull` | fade_audio.c:199-215 | with no stop and no unrecoverable write, playback writes (length − 16) div 8192 blocks, consumes the file to its end, and returns the item count of the last block read (512 for a full block, 0 when fewer than 16 bytes were left) |
| `Playback.OneBlockPlusOneByte` | fade_audio.c:199-206 | a file of 8193 bytes gives no write and ends on an unexpected end of file with result 0 |

## Left out

- Signal handlers and flags (fade_audio.c:15-36), `fork` and `kill`
  (257-262): these are OS concurrency. The playback stop flag is an oracle in
  `Env`. The control stop flag is the end of the key sequence.
- `Control.Fader.Tick`: `child_main` re-reads the stop flag inside a tick (lines
  163 and 165). A signal arriving mid-tick can skip that tick's step. Only the
  loop-head check is modelled.
- ALSA setup and teardown (`init_sound`, `stop_sound`, `init_volume_mixer`,
  `stop_volume_mixer`, lines 43-112) wrap foreign device calls.
  `snd_pcm_writei` and `snd_pcm_recover` are oracles. `snd_strerror` and the
  error messages are output only.
- ncurses (`initscr`, `noecho`, `nodelay`, `printw`, `clear`, `endwin`) and the
  100 ms `nanosleep` cadence are UI and timing. The status line the steps print
  is not modelled.
- `fopen`, `malloc`, `free` and `fclose` are I/O. The buffer's contents,
  including its stale tail after a short read, are not modelled. A failed
  `fopen` or an `ftell` error is not modelled either.
- A positive but short `snd_pcm_writei` result is accepted like a full one, as
  the code does. Only the sign of the result matters.
- `main`'s argument check and its error printing (lines 230-277) are plumbing.
- The `double` arithmetic of `base_volume * 1.26` is modelled with exact
  rationals (see above). The 64-bit range of `long` is not modelled either.
  `Control.Reachable` proves that reachable volumes stay within [0, 1.26·base]
  (the lower end 0 follows from the bound above base − 0.013·base − 1). So
  no overflow arises for a base of at most LONG_MAX / 1.26, which covers every
  mixer range. A larger base is outside the model.
