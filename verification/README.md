# audiOS: a verified model

audiOS is a small x86 operating system for music. This project models the parts of it whose
correctness is hardest to see from the code, and proves what each of them is for.

- **The FAT32 driver** (`kernel/src/fat.c`): a volume behind two caches, a write-back FAT sector
  mirrored to two tables and a one-cluster buffer. `Volumes.Volume` has the driver's fields and
  loops. Two ghost fields hold the plain table and clusters that the caches and the disk stand for; a
  third one is the witness (`Trees.Layout`) that the volume is well formed: every chain belongs to
  the root or to exactly one entry, chains share no cluster, a cluster is in use exactly when it lies
  on a chain, and the directories form a tree.
- **The image builders** (`tools/make_fat.py`, `tools/make_floppy.py`): a second FAT32 and a FAT12
  implementation over a byte array (`Images.Image`, `Floppies.Floppy`), with VFAT long names. They
  share the notion of a well-formed volume, of what a path reads, and the proofs in `Runs`, `Blobs`
  and `Builds`. `Releases` puts the parts together: a list of calls is run from an empty image, and the
  driver mounts the bytes and reads the files.
- **Memory** (`kernel/src/phys.c`, `kernel/src/clip.c`): the bump pool and the page-table mapper
  (`Physical.Phys`), and the sample pool with its compaction (`Clips.ClipPool`).
- **Sound** (`kernel/src/audio.c`, `kernel/src/hda.c`, `kernel/src/clip.c`): the looping source, the
  limiter and the one-pole filters (`Audio`), the DMA ring (`Rings.Ring`), the WAV codec (`Waves`).
- **The game and the editor** (`kernel/src/tetris.c`, `kernel/src/edit.c`): `Tetris.Game` and
  `Editors.Editor`.

Block devices are arrays of 512-byte sectors that do not fail. Words of 16, 32 and 64 bits wrap where
the code lets them wrap. A volume is *mendable* (`Mending.Mendable`) when its table and clusters can be
read as a well-formed volume under some layout; a call that leaves it otherwise has spoilt it. A path is
*plain* when no component of it is "." or "..".

## Model

| member | source | states |
|---|---|---|
| `Volumes.Volume.FatWrite` | kernel/src/fat.c:887-947 | succeeds exactly when the parent is there and clusters and a slot suffice, counting what an overwrite gives back; then the volume is well formed again exactly unless "." or ".." was created in the root, the entry lies in the first free slot or is the old one, and for an entry that is safe where it goes every path to it, dot components or not, reads the bytes written while every other path stats and reads as before; a failed call changes no directory and no other file, and leaves the volume mendable exactly under a condition on the state before: nothing was there to be taken, or the overwritten chain comes out of the search anew |
| `Volumes.Volume.FatMkdir` | kernel/src/fat.c:959-990 | succeeds exactly when the name is free and there is room; then, under the same conditions, the volume is well formed, every plain path to the name leads to an empty directory, and all other plain paths and all that named something are as before; a failed call changes no directory and no file, and leaves the volume mendable exactly if the name was in use or no cluster was free |
| `Volumes.Volume.FatRemove` | kernel/src/fat.c:1016-1048 | succeeds exactly for a file or an empty directory that is there; the result is well formed exactly unless the path ends in a dot name below the root; then the entry is marked erased and its chain freed, and the name is gone with every other plain path as before if and only if no later entry answers to one of its two names, or no plain path reaches its directory; a refused call changes nothing |
| `Removals.ErasedExact` | kernel/src/fat.c:1036-1043 | once the entry a name finds is marked erased, exactly its names find nothing and all others what they found, if and only if each of the entry's own two names finds something before it or nothing behind it |
| `Twins.Uncover` | kernel/src/fat.c:1016-1048 | the failing input, on every volume formatted with 4096 to 2^31 sectors: "/LONGNAME1" and "/LONGNAME2" both become "LONGNAME", and after "/LONGNAME" is removed the name reads the second file |
| `Leaks.LeakSpoils` | kernel/src/fat.c:972-990 | clusters that a failed call took and that no entry names: no layout makes the volume well formed again |
| `Leaks.OverExact` | kernel/src/fat.c:901-936 | after a failed overwrite some layout makes the volume well formed exactly if the new chain starts at the old first cluster and is as long as the old one |
| `Volumes.Volume.FatRead` | kernel/src/fat.c:797-829 | returns exactly the first bytes of what the path's file holds, as many as the buffer takes, touches nothing behind them, and fails exactly when the path names no file |
| `Volumes.Volume.FatStat` | kernel/src/fat.c:647-681 | reports the entry the path leads to, changing nothing |
| `Volumes.Volume.WalkParent` | kernel/src/fat.c:602-645 | splits a path into the directory that a component-by-component walk reaches and the last component, cut to 79 characters |
| `Volumes.Volume.DirFind` | kernel/src/fat.c:549-599 | stops at the first of 4096 slots that answers to the name by its short name or by the fragments before it |
| `Volumes.Volume.DirAdd` | kernel/src/fat.c:743-795 | puts the entry into the first free slot, in a new zeroed cluster if need be, exactly when there is one; the other slots and directories stay |
| `Volumes.Volume.FatGet` | kernel/src/fat.c:235-242 | through the sector cache, the 28-bit value last set |
| `Volumes.Volume.FatSet` | kernel/src/fat.c:244-254 | changes the low 28 bits of one entry of the plain table and nothing else, the top four bits of that entry included |
| `Volumes.Volume.FatFlush` | kernel/src/fat.c:204-217 | the tables stand for the same plain table, nothing is dirty, and the second copy stays a mirror |
| `Volumes.Volume.BothTables` | kernel/src/fat.c:204-217 | once nothing is dirty, both tables on disk spell every entry, with its top four bits |
| `Volumes.Volume.ReadClus` | kernel/src/fat.c:262-276 | success leaves the buffer equal to the cluster on disk, whether it was loaded or skipped |
| `Volumes.Volume.AllocClus` | kernel/src/fat.c:305-342 | takes exactly the cluster that the two-pass search finds, marks it, zeroes it on disk and moves the hint; otherwise changes nothing |
| `Chains.NextFitComplete` | kernel/src/fat.c:305-342 | on any table and from any hint, a cluster is found exactly when a free one is looked at before every entry equal to the BAD mark; the one found is the first, and "full" means neither occurs |
| `Chains.BadHidesFree` | kernel/src/fat.c:316-319 | a table with a free cluster behind a BAD mark, where the search finds none |
| `Volumes.Volume.FreeChain` | kernel/src/fat.c:344-354 | on any table in range, cyclic or not, ends and clears exactly the entries reachable from its start |
| `Names.ShortNameRoundTrip` | kernel/src/fat.c:380-453 | decoding an encoded name gives the name back, up to case, exactly when it fits 8.3 |
| `Paths.NewNameExact` | kernel/src/fat.c:549-599 | a new entry is found by exactly the names equal to its own, and hides nothing, if and only if each of its two names is its own or is found before it |
| `Paths.ShortIsSafe` | kernel/src/fat.c:743-795 | in a directory without long-name fragments every 8.3 name is such |
| `DotPaths.DotGoes` | kernel/src/fat.c:992-1048 | in every empty directory below the root, "." can be removed |
| `DotPaths.ClearedIsLost` | kernel/src/fat.c:1016-1048 | once the cluster of a directory is freed while the entries above stay, no layout makes the volume well formed |
| `LostDirectories.LoseA` | kernel/src/fat.c:1016-1048 | on every volume formatted with 4096 to 2^31 sectors, making "/A" and removing "/A/." both succeed and leave a volume no layout mends |
| `Geometries.AllocInside` | kernel/src/fat.c:257-342 | for every boot sector that fat_bind takes: all clusters alloc_clus can return lie inside the table and the data area exactly when there are none, or the end of the tables does not wrap and there are at least two clusters |
| `Geometries.TooFewInside` | kernel/src/fat.c:257-342 | with fewer than two clusters the promise fails exactly when the size of a table in bytes wraps to 0 |
| `Formats.OneClusterOutside` | kernel/src/fat.c:1220-1293 | a boot sector of one cluster that binds, where the driver hands out a cluster behind the volume |
| `Formats.WrappedTables` | kernel/src/fat.c:1220-1293 | a boot sector whose table end wraps: it binds, and a cluster handed out lies inside the first table |
| `Geometries.BindOk` | kernel/src/fat.c:1220-1293 | a boot sector that binds without wrap-around, with fewer clusters than there are entry values, gives a geometry whose data area lies inside the partition, as every operation assumes |
| `Geometries.FatGeom` | kernel/src/fat.c:1374-1397 | from 4096 sectors on it accepts eight sectors a cluster by the second pass; what it accepts fits the partition and its table names every cluster |
| `Formats.FatMkfs` | kernel/src/fat.c:1400-1495 | refuses fewer than 4096 sectors and touches nothing outside the partition; the boot sector binds back to the geometry chosen |
| `Formats.FormatAndMount` | kernel/src/fat.c:1220-1293 | binding a new volume gives its geometry; while the cluster numbers stay below the marks of the table, as they do up to 2^31 sectors, it gives a driver object with both tables equal, an empty well-formed root and all clusters but one free; from 2^31 + 2^25 sectors on they pass the marks, and no object is promised |
| `Formats.PastTheMarks` | kernel/src/fat.c:305-342 | on a larger volume the cluster numbered like the end mark is handed out, and a file that continues there reads back cut |
| `Geometries.ImageGeom` | tools/make_fat.py:114-138 | what it accepts fits, has the smallest table that fits, and is FAT32 by its 65525 clusters or already at 512-byte clusters; it accepts every image from 8 MiB to 32 GiB |
| `Images.Build` | tools/make_fat.py:101-112 | from 8 MiB to 32 GiB it gives a well-formed image with an empty root and all clusters but one free |
| `Images.Image.AddFile` | tools/make_fat.py:341-367 | succeeds exactly when the directory is found, clusters and slots suffice, growth included, the fragments can be numbered in a byte, and the size fits its field; whatever the name, the records lie behind the last entry and all else stays; the image is well formed again exactly for names but "." and ".." whose records end within 4096 slots, as counted before the call; then the bytes are read under the entry's names and every other path is as before, and otherwise no path at all reads anything new |
| `Images.Image.Mkdir` | tools/make_fat.py:314-339 | leaves a name in use alone; otherwise succeeds exactly when there is room, keeps the image well formed under the same conditions, and makes an empty directory that its names lead to |
| `Sights.PastUnseen` | kernel/src/fat.c:549-599 | records entered where they end behind slot 4096 change nothing that the driver looks up, stats or reads, by any path |
| `Images.Image.Fill` | tools/make_fat.py:435-442 | any list of calls, up to one that fails or would spoil the image, keeps it well formed and is a run in the sense of the lemmas below |
| `Images.Image.GrowDir` | tools/make_fat.py:369-384 | links a zeroed cluster behind the last one of a directory, exactly when one is free; no other directory or chain changes |
| `Images.Image.AddDirent` | tools/make_fat.py:399-420 | writes the records of a name behind all others, in a new cluster if need be, exactly when there is room |
| `Images.MountImage` | kernel/src/fat.c:1220-1293 | the driver binds every image the builder makes: same geometry, equal tables, and a well-formed volume with the same table, clusters and directories |
| `ImageNames.AnswersToItself` | tools/make_fat.py:29-95 | a printable name leads to its own records exactly when its long name fits the driver's buffer or, without one, it fits 8.3 |
| `LongNames.LongNameRoundTrip` | kernel/src/fat.c:456-492 | the fragments of a printable name decode to it exactly when it has at most 79 characters, and then take at most 7 of the 8 places |
| `LongNames.LongNameFound` | kernel/src/fat.c:549-599 | a file stored with its fragments answers to its long name |
| `LongNames.LfnEntries` | tools/make_fat.py:75-95 | builds the fragments, last first, with their ordinals, checksum and padding, exactly when the ordinals fit a byte |
| `LongNames.LegibleExact` | tools/make_fat.py:75-95 | some ordinal is the mark of an erased entry exactly for names of 165 fragments or of at least 229 |
| `Builds.RunKeeps` | tools/make_fat.py:314-367 | in any run of successful mkdir and add_file calls, on either builder, what a path reads at some point it reads ever after |
| `Builds.RunReads` | tools/make_floppy.py:268-317 | at the end of a run every file whose directories and name were unambiguous when it was added reads back its own bytes by its path |
| `ShortNames.SpeltSame` | tools/make_fat.py:29-49 | if the 8.3 spelling of one name equals, up to case, another name that survives its own spelling, both are spelt alike, cut names with their tilde included |
| `Catalogs.CatalogReads` | tools/make_fat.py:314-367 | distinctness drawn from the list of calls alone: if the names are proper, no two calls for files share directories and short name, and paths spell directories as their mkdir does, then in any run of the list from an empty volume, on either builder, every file meets the condition of RunReads and reads back its own bytes |
| `Releases.MakeImage` | tools/make_fat.py:427-446 | from 8 MiB to 32 GiB: build an image, run a list of calls, mount the bytes with the driver; the list stops only at a call that cannot succeed or would spoil the image, and if the list is such a catalog the driver reads every file added so far |
| `Releases.MakeFloppy` | tools/make_floppy.py:349-353 | the same on a floppy, where a catalog stops only at a call that cannot succeed |
| `Releases.BootFloppyIsCatalog` | tools/make_floppy.py:349-353 | the tool's own four calls are a catalog, whatever the files hold |
| `Floppies.PackOne` | tools/make_floppy.py:61-78 | storing a 12-bit entry changes that entry and no other, although neighbours share a byte |
| `Floppies.Floppy.AddFile` | tools/make_floppy.py:290-317 | succeeds exactly when the directory is found and clusters and slots suffice; whatever the name, the records lie behind the last entry and all else stays; the floppy is well formed again exactly for names but "." and "..", the bytes are read under the entry's names, every other path is as before, and both tables are up to date |
| `Floppies.Floppy.Mkdir` | tools/make_floppy.py:268-289 | the same for a directory, in the fixed root or below it |
| `Floppies.Floppy.Fill` | tools/make_floppy.py:349-353 | any list of calls, up to one that fails or would spoil the floppy, keeps it well formed and is a run in the sense of the lemmas above |
| `Floppies.Floppy.ChainsApart` | tools/make_floppy.py:170-177 | no two chains share a cluster: not the root's, a directory's or a file's |
| `Floppies.Floppy.WriteFats` | tools/make_floppy.py:145-149 | both tables of the image equal the one in memory; the root and the clusters stay |
| `Floppies.Floppy.WriteDir` | tools/make_floppy.py:184-223 | the pieces of the blob land in the root region or in the clusters of the chain, in order, and nothing else changes |
| `Physical.Phys.Alloc` | kernel/src/phys.c:174-189 | grants exactly when the aligned sum fits; the fill grows by at least what was asked exactly when its sum with the request does not wrap, and then the block is disjoint from all before it |
| `Physical.Phys.SameBlockTwice` | kernel/src/phys.c:174-189 | a request of 2^64 - 128 bytes between two of 128 makes the second return the block of the first |
| `Physical.Phys.AllocIsa` | kernel/src/phys.c:191-228 | grants, for every 64-bit request to a pool that is there, exactly when the rounded length fits at the fill or at the next 64 KiB boundary, so the skip loop ends; short of a wrap the block is disjoint from all before it, below 16 MiB and inside one 64 KiB page |
| `Physical.Phys.IsaPlain` | kernel/src/phys.c:191-228 | that condition in plain numbers where nothing wraps: room in the pool below 16 MiB, at the fill or behind the next boundary, in one page |
| `Physical.Phys.MapPage` | kernel/src/phys.c:109-150 | succeeds exactly when no large page lies on the walk and the pool has a page for every table the walk lacks; then one page of the direct map leads to its own frame, uncached, and no other translation changes; none at all changes on failure |
| `Physical.Phys.MapMmio` | kernel/src/phys.c:156-171 | every page of the range is mapped to itself if the range lies in the 52-bit space and spans at most 2^36 pages; pages outside are translated as before, on failure too; a range that is not empty fails only when a large page lies on the walk of one of its pages or the pool is empty |
| `Clips.ClipPool.Compact` | kernel/src/clip.c:359-387 | every named clip keeps its rate and samples; live clips lie one after another from frame 0 |
| `Clips.ClipPool.PoolAlloc` | kernel/src/clip.c:393-416 | with playback stopped and a legal length it fails exactly when live frames and request exceed the pool |
| `Clips.ClipPool.Make` | kernel/src/clip.c:446-479 | succeeds exactly for a legal rate, a name in use or legal with a slot free, a legal length, and room: behind the fill, or with playback stopped beside the live frames of the other clips; then there is silence of that rate and length under the name and every other clip is as before; a failed call has lost the clip of that name exactly if the rate is legal |
| `Waves.WaveRoundTrip` | kernel/src/clip.c:566-676 | decoding an encoded clip gives rate and samples back exactly for rates 4000 to 192000 and at least one frame that fits |
| `Waves.UnknownIgnored` | kernel/src/clip.c:566-649 | an unknown chunk of odd or even size, anywhere in any chunk list, changes nothing |
| `Waves.WavDecode` | kernel/src/clip.c:566-649 | the loop over the buffer decodes as the chunk-list reading of it says |
| `Waves.WavEncode` | kernel/src/clip.c:652-676 | writes the file exactly when it fits, and nothing otherwise |
| `Audio.Engine.Next` | kernel/src/audio.c:155-193 | call k of a play gives the sample at k steps into the loop exactly while that is short of the loops asked for, for ever without a limit; then silence; the inner loop ends |
| `Audio.Limiter.ProcessOut` | kernel/src/audio.c:211-251 | the gain stays in [60000, 65536], no 32-bit product overflows, and no output exceeds 30000 times the volume |
| `Audio.PoleBetween` | kernel/src/clip.c:900-943 | the state of a filter never leaves the interval from the old state to the input, and its product stays below 2^31 |
| `Audio.LowPass` | kernel/src/clip.c:912-921 | the samples become the filter's states, which the clamp never touches |
| `Rings.Ring.Service` | kernel/src/hda.c:1072-1092 | however the hardware advances, up to 31 periods behind the fills, it plays fill 0, 1, 2, ... in order, and no fill goes to the period being played |
| `Tetris.Game.Frame` | kernel/src/tetris.c:1053-1069 | under any keys and rolls: a falling piece overlaps nothing, no full row exists outside the clear state, and the filled cells plus ten times the lines equal four times the pieces locked plus ten times the rows pending |
| `Tetris.Game.PieceLanded` | kernel/src/tetris.c:517-531 | one lock adds at most four lines, scores them, and touches no filled cell |
| `Tetris.Game.ApplyClears` | kernel/src/tetris.c:468-491 | the in-place collapse filters out the full rows and pads with empty rows on top |
| `Tetris.Game.FeedKey` | kernel/src/tetris.c:837-903 | no key breaks the invariant, a pause gives back the phase it took, only a turn key in play changes the rotation, and in the name entry a letter is typed or rubbed out or the name of up to three capitals is entered |
| `Tetris.RubUndoesType` | kernel/src/tetris.c:837-903 | a letter typed and rubbed out leaves the letters typed before; the suggested name does not come back, yet is what gets entered |
| `Editors.VisIncreases` | kernel/src/edit.c:31-50 | a later offset is shown at a later row and column, over newlines and wraps |
| `Editors.Editor.VisToPos` | kernel/src/edit.c:53-83 | the greatest offset shown at or before the target, and what happens for a column off the screen |
| `Editors.BackAgain` | kernel/src/edit.c:31-83 | the offset found for the place where an offset is shown is that offset |
| `Editors.EraseUndoesTyping` | kernel/src/edit.c:86-108 | as many backspaces as characters were typed give the text back |
| `Editors.TypingMoves` | kernel/src/edit.c:31-108 | typing moves nothing before the cursor on the screen, and the cursor to the next place |
| `Editors.Editor.Feed` | kernel/src/edit.c:234-309 | a key changes the text by one character typed or erased at the cursor, or not at all, and then says where the cursor lands: arrows and page keys at the greatest offset at or before the place above or below, Home and End at the ends of the row on the screen |

## Findings

Where a promise does not hold of the code, the model keeps the code, and the condition under which it
does hold is proved.

- *Dot names.* `fat_remove("/A/.")` on an empty directory erases its "." and frees its cluster, which
  the entry "/A" still names (`LostDirectories.LoseA`). The drive layer drops such components
  (kernel/src/fs.c:162-170), but it then cuts the path at 127 characters (kernel/src/fs.c:45-52), so a
  path that is long enough can end in one. `fat_write` and `fat_mkdir` of "." or ".." in the root enter
  a name that spoils the volume. The exact conditions are in `FatWrite`, `FatMkdir` and `FatRemove`,
  and for the builders in `AddFile` and `Mkdir`.
- *Names that do not fit 8.3* are cut without notice (kernel/src/fat.c:406-453): the new entry is then
  not found by its own name, or answers to another's. It is harmless exactly under `Paths.Harmless`
  (`Paths.NewNameExact`); for a name that fits, stale fragments in front of the slot are the only danger.
- *Removal* leaves the fragments of a long name behind, and an entry of the same name further down comes
  to light. `Removals.Sole`, a condition on the entry's two names, is exactly when it does not
  (`Removals.ErasedExact`, and for whole paths `FatRemove`); `Twins.Uncover` is an input where it does.
- *The BAD mark* is taken for a read error (kernel/src/fat.c:316-319): a free cluster behind such an
  entry is not found (`Chains.NextFitComplete` is exact, `Chains.BadHidesFree` shows a table).
- *Boot sectors* make the driver allocate outside the volume when the end of the tables wraps
  (`Formats.WrappedTables`), or when there are fewer than two clusters and the size of a table in bytes
  wraps to 0, i.e. the table has a multiple of 2^23 sectors (`Formats.OneClusterOutside`);
  `Geometries.AllocInside` and `Geometries.TooFewInside` are exact. With one cluster and an ordinary
  table nothing can be allocated, and the promise holds.
- *Failed calls* of `fat_write` and `fat_mkdir` keep the clusters they took, which no entry names, and a
  failed overwrite has freed the old chain. `Leaks.WriteSpared` and `Leaks.MakeSpared` say, of the state
  before, exactly when the volume stays mendable.
- *Volumes above 2^31 sectors*: cluster numbers reach the marks of the table (`Formats.PastTheMarks`).
- *phys_alloc* near 2^64 bytes wraps and hands out one block twice (`Physical.Phys.SameBlockTwice`).
- *Long names of 80 characters or more* lose their end in the driver's buffer
  (`LongNames.LongNameRoundTrip`); a name with a tilde or a trailing dot, which the image builder takes
  for an 8.3 name, is not found by the driver as it was given (`ImageNames.AnswersToItself`).
- *Directories of an image* may pass the 4096 slots the driver looks at: `Blobs.Sighted` says beforehand
  when the records of a name end within them, and what ends behind is not seen (`Sights.PastUnseen`).
- *Names of 165, or of 229 and more, fragments* contain one whose ordinal is the mark of an erased entry
  (`LongNames.LegibleExact`).
- *A WAV* outside 4000 to 192000 Hz, or without a frame, does not survive the codec
  (`Waves.WaveRoundTrip`).
- *A failed clip_make* has already dropped the clip it was to replace, unless the rate was refused
  (`Clips.ClipPool.Make`, with `Clips.CanMake` for when it fails).
- *A high-score name* cannot hold a Q, which ends the game instead (`Tetris.Game.FeedKey`).
- *A target column off the screen* moves the cursor to the start of the next row when the row is full
  (`Editors.Editor.VisToPos`).

## Left out

- Volumes.Volume.FatWrite: what the file that was to be overwritten reads after a failed call, whose
  chain is freed by then.
- Volumes.Volume.FatRead: copying from an offset (fat_read_at) and directory iteration are not modelled.
- Formats.FormatAndMount: what the driver does on a volume whose cluster numbers pass the marks is shown
  by Formats.PastTheMarks alone.
- Physical.Phys.AllocIsa: what a granted block overlaps when the sum of fill and request wraps; the
  wrap of the pool is shown by Physical.Phys.SameBlockTwice.
- Images.Image.AddFile: for names with a fragment that looks erased, that the records are in place is
  stated, not what the driver reads; names are ASCII; the path comes as a list of components.
- Images.Image.Fill: stops short of calls whose names are "." or ".." or look erased, or whose records
  would end behind slot 4096; AddFile and Mkdir state what those do.
- Floppies.Floppy.Fill: the same, without the 4096 slots, which a floppy cannot reach.
- Rings.Ring.Service: a stream whose RUN bit drops and is armed again.
- Tetris.Game.FeedKey: painting, serial keys, score files and the random rolls, which are parameters.
- Editors.Editor.Feed: painting, and the file that a save writes.
- Audio.Limiter.ProcessOut: its meter; the long-run rate conversion of fill_period, whose position wraps.
- Device failures, retries and crashes in the middle of a call.
- fat_copy and fat_rename, volume switching, MBR and GPT probing, the partition table of an image, the
  boot sectors of the floppy and the patches applied to it.
- Drive letters, current directories and path building in kernel/src/fs.c.
- phys_init's choice among memory regions beyond the one it takes, the AC97 ring, and all register
  programming.
- Clip resampling, mixing, joining and undo.
