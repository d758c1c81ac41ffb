# Verified model of ft

`ft` copies shared folders from a server to a client over one encrypted connection, or several in
parallel, and keeps the destination a one-way mirror: changed files are sent, files that are gone are
deleted after a clean finish. This project models its Rust implementation in Dafny 4.11 and proves what
it is for, layer by layer:

- **Text, Wire, Frames, Mtime, Paths** - numbers and lines, the buffered connection, block and manifest
  framing, file times, and the containment check on names.
- **Receiver** - what the client does with any byte stream, as functions. **Client** holds the client's
  own loops and in-place updates, proved equal to those functions on every stream, malformed ones
  included. **Confinement** shows what no stream can make the client do.
- **Transcript, Format, Mirror, Convergence** - the server's bytes for its units of work, the proof that the client
  takes them to their meant effect, that effect path by path, and the mirror step.
- **Ignore, Tree, Bundling, Source** - patterns, the pruned walk, batching, and the theorem from shared
  folders to destination.
- **Control, Adaptive** - the compression-level controller as a function of its calls and as the object
  that is updated in place.
- **Tally, Sender, Producer, Pass, Serving, Session** - the server's own loops: blocks, bundles, large files,
  the walk, a pass, the handler of a parallel stream and the command loop, with their counters and flushes, and
  with what each of them compresses.
  **Dialogue** puts both ends together: each says what the other answers.
- **Progress, Growth, Net, Ends** - client and server as two ends of a pair of channels that carry any piece at
  any time: what each says grows with what it hears, and no reachable state is stuck before the goodbye.
- **Parallel, Confluence, Deletion, EndToEnd** - the parallel mode as a step system of one producer, a bounded
  queue, a `done` flag, an accept loop, and any number of handlers and workers over FIFO connections that
  may fail at any point. Popping the queue and reading the flag are separate steps, as are the length test
  and the push, and every access of a worker to the shared sets and files. **Liveness** shows that without
  failures it always gets to its end, and when the server's producer does.
- **Jsonc** - comment stripping for configuration files.

The main results are `Source.SourceIsMirrored` and `EndToEnd.ParallelMirrorsSource` (from shared folders to
destination, single stream and parallel), `Transcript.UnitRoundTrip`, `Confluence.AnyInterleavingIsSync`,
`Deletion.DeletesTheStaleIff`, `Deletion.AllDeliveredIff`, `Confinement.AnyStreamIsConfined`,
`Ends.SyncNeverStuck`, `Ends.StreamNeverStuck`, `Liveness.ParallelNeverStuck` and `Tree.PrunedIsFiltered`.

`dafny verify dfyconfig.toml` checks everything.

## Conventions

Text and bytes share one alphabet: a stream is a `string`, one character a byte, so control lines can be
written as literals. A path is its sequence of components and the file system a map from paths to content
and time. The compression library is any pair of functions in which decompressing gives the data back, the
clock any non-negative durations, the regular expressions a small syntax with the usual meaning, case
folding any function on characters. A connection knows what the peer will still deliver before it closes;
what a party has sent while it waits is what it has sent when that stream ends there. Numbers are checked
against the widths of the program's types where they are parsed.

## What the model shows about the code

- `NOUNIT` does not imply an empty queue (`Deletion.NoUnitDoesNotDrain`): a handler that finds the queue empty
  may read the flag only after the producer has pushed its last unit and set it. A clean client run can
  then delete a file the source still offers. `Deletion.DeletesTheStaleIff` says exactly when it does not, and
  `Deletion.AllDeliveredIff` gives the check on the queue and the idle streams that rules it out.
- After the server has stopped accepting it joins its producer, which may be waiting at a full queue nobody
  empties any more: the server then hangs exactly when more than 256 units are untaken
  (`Liveness.ProducerFinishesIff`), for instance after an idle timeout with more than 256 units to send
  (`Liveness.IdleTimeoutEndsIff`).
- A stream that ends before its client reads a unit is forgiven (`rust/src/client.rs:672-674`), but the server
  may have taken units from the queue for it. The repository's protocol notes take such a
  stream to have claimed nothing; `Deletion.WhereUndelivered` lists it as one of the two places an undelivered unit can be.
- The promised exact mirror (`README.md:14`) holds below the recorded roots only: a shared folder that has
  become empty records no root and keeps its old files (`Source.EmptiedFolderKeepsItsFiles`). Which folders are
  roots, and so which are mirrored exactly, is `Source.RecordedIff` and `Source.FolderIsMirroredIff`.
- The time conversion inverts itself exactly from 1970 on (`Mtime.TicksRoundTripIff`), so older files are
  fetched again by every run (`Convergence.OldFileNeverSettles`).
- The raw form of a large file announces its length before it is read and stays in step exactly when the
  file has not become shorter (`Frames.RawStaysFramedIff`); one that has grown is cut off at the announced
  length. A file that has become empty leaves its header queued until the next line is sent, though never across
  a read.
- An accepted name need not lie under the mirror root it records: it does exactly when the segment by which it
  last enters the destination is its first non-empty one (`Paths.RootCoversIff`). `a/../b` and `./b` do not
  (`Paths.NamesThatMissTheirRoot`); names from a server's own walk always do.
- The protocol notes have bundle bodies as a length and raw bytes, and blocks as
  raw deflate; the code frames both with `Z` and `R` headers and uses zstd. The model follows the code.

## Model

| member | source | states |
|---|---|---|
| `Text.ParseDec` | rust/src/client.rs:57-68 | a decimal number written by the server is read back by `u64` parsing exactly when it fits 64 bits, and refused otherwise |
| `Text.ParseDecInt` | rust/src/client.rs:57-68 | the same for signed tick counts and `i64`, negative ones included |
| `Text.PlusIsRead` | rust/src/client.rs:57-68 | what else the number parsers take: one plus sign; no empty text and nothing but digits behind the first character |
| `Wire.LineOf` | rust/src/wire.rs:27-41 | a line without line break and without a carriage return at either end is read back unchanged, and the stream stands right behind it |
| `Wire.LineSurvivesIff` | rust/src/wire.rs:27-41 | those lines and no others survive: any other text is read back as something else |
| `Wire.Conn.ReadLine` | rust/src/wire.rs:27-41 | whatever pieces the transport delivers, the line returned and the rest of the stream are functions of the stream; `None` exactly on a clean close; a read with output still queued is counted |
| `Wire.Conn.ReadExact` | rust/src/wire.rs:44-53 | exactly n bytes or an error, independent of short reads |
| `Wire.Conn.CopyExact` | rust/src/wire.rs:89-98 | moves exactly n bytes, and when the stream ends early hands on all of it but the bytes of the last, broken chunk |
| `Wire.Conn.Flush` | rust/src/wire.rs:73-79 | flushing changes when bytes leave, never which bytes |
| `Frames.BlockRoundTrip` | rust/src/server.rs:89-105 | a block framed raw or compressed is read back by both block readers of the client, which stop right behind it; its header is never mistaken for `Z`, `E` or `-1` |
| `Frames.PiecesRoundTrip` | rust/src/client.rs:280-325 | any sequence of raw and compressed blocks ended by `E` gives back its content |
| `Frames.BodyRoundTrip` | rust/src/client.rs:280-325 | large-body round trip for every content and every sequence of raw or compressed decisions, leaving the next control line at the head of the stream |
| `Frames.RawStaysFramedIff` | rust/src/server.rs:264-282 | the raw form, which sends at most the announced length, stays in step exactly when the file has not become shorter |
| `Frames.EntryRoundTrip` | rust/src/client.rs:57-68 | every manifest entry a server can offer, spaces in the name included, is parsed back from its line |
| `Frames.ManifestRoundTrip` | rust/src/client.rs:195-211 | a whole manifest is read back and the stream behind it is untouched |
| `Frames.OtherTags` | rust/src/client.rs:150-166 | a header with a tag no server writes: raw in a bundle, compressed in a large body; a malformed number is 0 |
| `Format.OfferFormat` | rust/src/server.rs:169-184 | the lines of offers, character by character: a directory, a large file, a manifest with size, time and name |
| `Format.BodyFormat` | rust/src/server.rs:89-105 | the bytes of bodies, character by character: raw, compressed and missing bundle entries, a large file in one piece, in blocks, or declined |
| `Format.EmptySession` | rust/src/server.rs:583-617 | the lines around the units of a plain and of a cutover session |
| `Format.EmptyStream` | rust/src/server.rs:774-800 | a parallel stream on which nothing is offered, asked for in either mode, keepalives included, and the answer to a wrong first line |
| `Format.GreetingFormat` | rust/src/server.rs:569-581 | the greeting, character by character: configuration line for the right token, an error for another |
| `Mtime.TicksRoundTripIff` | rust/src/mtime.rs:19-46 | for every 64-bit tick count, the final cast to `i64` included: setting a file time and reading it back is the identity exactly from 1970 on |
| `Mtime.TicksCount` | rust/src/mtime.rs:19-46 | the clock both ends speak of: units of 100 ns, 621355968000000000 of them up to 1970 |
| `Mtime.Pre1970Error` | rust/src/mtime.rs:38-44 | before 1970 the result is off by exactly twice the epoch offset |
| `Mtime.TimeTruncates` | rust/src/mtime.rs:32-46 | from 1970 on a file time loses less than 100 ns, downward, and nothing more the second time |
| `Paths.SafeJoinByText` | rust/src/paths.rs:52-69 | the loop over a mutable path and the textual prefix test accept a name exactly when its normalised components strictly extend the destination's, names that leave and re-enter it included |
| `Paths.PrefixByText` | rust/src/paths.rs:39-46 | comparing texts is comparing components: a sibling sharing a textual prefix is refused, and the destination itself |
| `Paths.SafeJoinPlain` | rust/src/paths.rs:52-75 | a name of plain segments lands at those segments below the destination, and its top segment is the first |
| `Paths.EitherSeparator` | rust/src/paths.rs:52-75 | both separators mean the same, for the place of a name and for its mirror root |
| `Paths.RootIsChild` | rust/src/client.rs:104-110 | whatever name a server sends, a recorded mirror root is a direct child of the destination |
| `Paths.RootCoversIff` | rust/src/paths.rs:52-75 | an accepted name lies under the mirror root it records exactly when the segment by which its walk last enters the destination is its first non-empty one |
| `Paths.NamesThatMissTheirRoot` | rust/src/paths.rs:52-75 | two names that never leave the destination and yet miss: `a/../b` records the root of `a`, `./b` records none |
| `Transcript.BodiesRoundTrip` | rust/src/client.rs:229-272 | for any mix of wanted, declined, locked and unsafe entries the receiver stays in step and writes exactly the wanted readable files, in mask mode and streaming |
| `Transcript.BundleRoundTrip` | rust/src/server.rs:169-242 | manifest, mask and bodies of a bundle take the client to the bundle's meant effect and no further |
| `Transcript.LargeRoundTrip` | rust/src/client.rs:331-406 | the same for a large file: accepted, declined, unsafe or locked, with an offset reply or streaming |
| `Transcript.UnitRoundTrip` | rust/src/client.rs:114-135 | the codec theorem: for every client state, unit and framing the client takes the unit's bytes to its meant effect and stops exactly behind them |
| `Transcript.PassRoundTrip` | rust/src/client.rs:501-523 | the `SYNC` item loop carries a whole pass to the effect of its units, each served with the client's own reply of the moment |
| `Transcript.StreamRoundTrip` | rust/src/client.rs:648-660 | the unit loop of a parallel stream does the same, with replies or streaming, and counts the units |
| `Transcript.SessionRoundTrip` | rust/src/client.rs:492-551 | a plain session ends cleanly in the meant effect of its units |
| `Transcript.CutoverRoundTrip` | rust/src/client.rs:492-551 | a two-pass session, any number of keepalives in the pause, ends cleanly; the second pass alone fills the offered set, the mirror roots of both stay |
| `Receiver.UnheardLine` | rust/src/client.rs:114-135 | an unknown line or an unparsable `F` line: among items it has no effect, on a parallel stream it counts as a unit, between two passes it ends the run uncleanly |
| `Mirror.ApplyAllIs` | rust/src/client.rs:195-406 | path by path: after any units without repeated targets a target holds what was fetched or what was there, all else is untouched, the offered set and the mirror roots are exactly those of the safe names |
| `Mirror.PlanIs` | rust/src/client.rs:213-240 | planning a bundle writes nothing, records exactly the safe names, and wants exactly the files of which there was no copy of the same length and tick count before the bundle |
| `Mirror.AsksIff` | rust/src/client.rs:41-54 | what the client asks for: mask digit `1` or reply `0` exactly for a safe name whose local file is missing, has another length or another tick count; `0` or `-1` for all others |
| `Convergence.SyncConverges` | rust/src/client.rs:492-551 | SYNC convergence from bytes to files: the run ends cleanly and every path is reconciled, that is offered targets hold what landed, other non-ignored paths under a root are gone, everything else is as before |
| `Convergence.CutoverConverges` | rust/src/client.rs:492-551 | the same for two passes: under the roots of either pass only what the last pass offered survives |
| `Convergence.MirrorIff` | rust/src/client.rs:41-54 | after reconciling a readable source every offered file is there in its length and with its tick count, and nothing else is below the roots, exactly when every file that had to be fetched is dated 1970 or later |
| `Convergence.ResyncFetchesNothing` | rust/src/client.rs:41-54 | a second run over the bytes of an unchanged source ends cleanly, fetches no file and no byte, counts every safe offer as unchanged, and leaves every file as it was, mirror step included |
| `Convergence.OldFileNeverSettles` | rust/src/mtime.rs:38-44 | a fetched file dated before 1970 is wanted again by the next run |
| `Convergence.StreamRefinesMasks` | rust/src/client.rs:242-257 | on an empty destination streaming without masks and offsets ends in the same files, offered set and roots |
| `Confinement.AnyStreamIsConfined` | rust/src/client.rs:492-551 | for every byte stream whatever: a run that does not end with `DONE` deletes nothing, nothing outside the destination is ever written or deleted, and what is deleted lay under a recorded root and was not ignored |
| `Confinement.UnitsConfined` | rust/src/client.rs:636-664 | a parallel stream, on every byte stream, creates files only inside the destination and records only direct children of it as roots |
| `Client.Client.RecvBundleFile` | rust/src/client.rs:150-166 | raw or compressed by its tag, on every stream: the bytes handed to the writer, whether the body was complete, and where the stream stands |
| `Client.Client.RecvLargeBody` | rust/src/client.rs:280-325 | the block loop and the raw loop compute the specified body on every stream, cut short ones included |
| `Client.Client.WriteBundleFile` | rust/src/client.rs:169-189 | a complete body is stored with the offered time and counted; a broken one leaves what had arrived, dated by the attempt, and is not counted |
| `Client.Client.HandleBundle` | rust/src/client.rs:195-274 | manifest loop, decision loop and body loop equal the specification on every stream, malformed ones included |
| `Client.Client.HandleLarge` | rust/src/client.rs:331-406 | reply, target file, discard and counters equal the specification on every stream |
| `Client.Client.DispatchItem` | rust/src/client.rs:114-135 | each item line has its specified effect, unknown and unparsable lines have none |
| `Client.Client.RunPasses` | rust/src/client.rs:492-551 | on every byte stream the pass loop ends as the specified run does, deletes only after `DONE`, says exactly the specified text and `BYE`, and never waits with output queued |
| `Client.Client.ServeUnits` | rust/src/client.rs:636-676 | a parallel stream equals its specification; it ends well exactly with `NOUNIT` or when it fails before the first unit |
| `Client.Client.DeleteUnseen` | rust/src/client.rs:418-442 | the recursive walk removes exactly the files below a directory that are neither ignored nor offered, and counts them |
| `Client.Client.MirrorDelete` | rust/src/client.rs:409-416 | over all recorded roots exactly the stale files are removed |
| `Control.AnyInterleavingIsLegal` | rust/src/compress.rs:85-213 | under any interleaving of calls from any number of streams the level stays in -5 to 19 and off 0, the raw counter below 64, the streak below 4, the window below 4 MiB, and outside raw mode the raw counter is 0 |
| `Control.StartsNear` | rust/src/compress.rs:90-100 | a new controller starts at level 3, not raw, with an empty window and the margin in 1 to 16 nearest to the one asked for, 1.6 without one |
| `Control.WasteBound` | rust/src/compress.rs:107-122 | from any legal state, of K consecutive blocks that do not shrink at most 4 (K div 68) + min(4, K mod 68) are tried |
| `Control.WasteIsReached` | rust/src/compress.rs:193-204 | a controller without a streak behind it tries exactly its share of every 68-block cycle, so the bound is tight |
| `Control.CallMovesLevel` | rust/src/compress.rs:134-190 | what one call does to the level, by what was measured: it rises exactly when a window closes in which streams times elapsed seconds were at least raise times the compression seconds and it is below 19, falls exactly when they were less than margin times and it is above -5, by 2, 3 or 4 and 1, 2 or 3 levels depending on the factors 6, 12, 1 and 0.5 |
| `Control.WholeWindow` | rust/src/compress.rs:134-169 | a whole window of blocks: what decides is the time from its first block to the one that fills 4 MiB, against the sum of its compression times |
| `Control.ClimbStep` | rust/src/compress.rs:174-190 | a window with spare at or above the raise threshold strictly raises every level below 19 |
| `Control.OnlyWindowsMove` | rust/src/compress.rs:134-190 | over any interleaving of calls the level moves as by the windows the calls close, one after the other, and by nothing else |
| `Control.ReachesCeiling` | rust/src/compress.rs:134-190 | a run of calls that closes at least twelve windows, in all of which the link took at least raise times the compression time per stream, ends at level 19 from any legal state, the hop over 0 included |
| `Control.DescentStep` | rust/src/compress.rs:174-190 | a window with spare below the margin strictly lowers every level above -5 |
| `Control.ReachesFloor` | rust/src/compress.rs:134-190 | a run of calls that closes at least 23 windows, in all of which the link took less than margin times the compression time per stream, ends at level -5 |
| `Control.Holds` | rust/src/compress.rs:134-190 | a run of calls whose windows all measure between the two thresholds leaves the level where it was |
| `Control.TurnsRaw` | rust/src/compress.rs:134-204 | at the floor a call turns to raw exactly when it closes a window in which the streams compressed slower than the link took their output, or fills a streak of four blocks that did not shrink |
| `Control.TurningStartsAfresh` | rust/src/compress.rs:107-204 | turning raw or back empties the window; above the floor only a fourth block in a row that does not shrink turns raw, and a compressed block ends the streak |
| `Adaptive.AdaptiveState.WantRaw` | rust/src/compress.rs:107-122 | the in-place method makes exactly the specified transition and keeps the state legal |
| `Adaptive.AdaptiveState.NoteCompressed` | rust/src/compress.rs:134-169 | the same for a measured block, window closing included, for any clock |
| `Adaptive.AdaptiveState.NoteIncompressible` | rust/src/compress.rs:193-204 | the same for a block that did not shrink |
| `Adaptive.AdaptiveState.ApplySpare` | rust/src/compress.rs:174-190 | moves the level as specified and reports the switch to raw exactly at the floor with spare below 1 |
| `Tally.UnitAccounts` | rust/src/server.rs:169-242 | for one unit the client's fetched files and bytes equal the server's sent files and bytes, every offer is sent or skipped, payload on the wire never exceeds content |
| `Tally.PassAccounts` | rust/src/server.rs:303-416 | the same over a whole pass, with masks or streaming (then for safe names) |
| `Sender.Reader.ReadBlock` | rust/src/server.rs:63-73 | short reads are repeated: a block is full unless the file has ended, and the pieces are the file |
| `Sender.Server.PutChunkBundled` | rust/src/server.rs:89-105 | one well-formed block holding the data, compressed exactly when a level is given, there are at least 256 bytes and they shrink below 95 percent; the wire counter grows by the payload |
| `Sender.Server.SendChunkAdaptive` | rust/src/server.rs:114-163 | one well-formed block holding the data, flushed, compressed at the level exactly when the controller does not want raw, there are at least 256 bytes and they shrink below 95 percent; the controller stays legal and takes the step of that outcome |
| `Sender.Server.SendBundle` | rust/src/server.rs:169-242 | sends the bytes of the bundle for the mask it heard with matching totals, wherever the coalescing flushes fall; each wanted file compressed, at the level of the controller, exactly when compression is on, its name is not listed and it pays; without a reply it has sent just the manifest, flushed |
| `Sender.Server.SendLargeFile` | rust/src/server.rs:246-299 | in blocks of 1 MiB, each as the controller has it, exactly when compression is on, at least 256 bytes remain and the name is not listed; the block form frames whatever is read from the offset on, the raw form announces the remaining length and sends at most that much |
| `Sender.Server.ServeLarge` | rust/src/server.rs:384-408 | offer, reply, refusal, locked file and body for every reply: bytes, form and totals of the file from the offset the reply asks for |
| `Sender.Server.ServeUnit` | rust/src/server.rs:820-856 | one unit of any kind and any reply, resuming ones included: bytes, compression choices, totals and consumed replies as specified, a bundle at the controller's level, a large file moving the controller block by block; while it waits, the whole offer has left |
| `Ignore.ParseSpec` | rust/src/ignore.rs:35-57 | the parsing loop yields the pattern list whose meaning on texts the next rows give |
| `Ignore.EntryIgnores` | rust/src/ignore.rs:35-57 | on specification text: a single part ignores what has a segment its wildcards fit, several parts what has a prefix they fit one by one, a trailing separator makes it directories and what is below them; leading separators, separators of either kind and blanks around the entry make no difference |
| `Ignore.NameIgnores` | rust/src/ignore.rs:35-57 | a plain name ignores exactly the paths on which it stands as a segment, up to case |
| `Ignore.DoubleStarIgnores` | rust/src/ignore.rs:35-57 | the same for an entry with a `**` between its parts: at least one segment stands between the parts in front and those behind |
| `Ignore.EitherIgnores` | rust/src/ignore.rs:35-57 | `a;b` and `a,b` ignore exactly what `a` or `b` ignores |
| `Ignore.EmptyEntry` | rust/src/ignore.rs:35-57 | an entry of blanks and separators only is dropped |
| `Ignore.PathText` | rust/src/ignore.rs:60-72 | an item may be named with separators of either kind and with some around its path |
| `Ignore.GlobToRegex` | rust/src/ignore.rs:104-127 | the index loop with its two-character step compiles the specified tokens |
| `Ignore.IgnoreSet.Test` | rust/src/ignore.rs:60-99 | the early-return search over patterns and prefixes answers true exactly when some pattern hits the item or an ancestor directory |
| `Ignore.AncestorClosure` | rust/src/ignore.rs:60-99 | an entry of a directory is ignored exactly when the directory is ignored as a directory or some pattern matches the entry's own full path |
| `Ignore.BelowIgnored` | rust/src/ignore.rs:60-99 | everything below an ignored directory is ignored, at any depth |
| `Ignore.IsIgnoredSegments` | rust/src/ignore.rs:60-72 | the test on a path's text is the test on its segments |
| `Ignore.GlobSegments` | rust/src/ignore.rs:104-127 | a PATH pattern without `**` matches a path exactly when both have as many segments and each part matches its own segment, for every pattern and path |
| `Ignore.OnePrefix` | rust/src/ignore.rs:72-80 | so at most one prefix in the loop can match |
| `Ignore.DoubleStarCrosses` | rust/src/ignore.rs:104-127 | `p/**/q` matches a path exactly when its first segments match the parts of `p`, its last ones those of `q`, and at least one segment stands between, none of those with a line break |
| `Ignore.NameWildcards` | rust/src/ignore.rs:131-142 | on one segment the wildcards of a NAME pattern mean what the segment wildcards mean |
| `Ignore.NameIsWild` | rust/src/ignore.rs:131-142 | a NAME pattern matches by its text: `*` any run, `?` one character, neither across a line break, everything else itself up to case |
| `Ignore.PartIsWild` | rust/src/ignore.rs:104-127 | a part of a PATH pattern matches by its text: `*` any run, `?` one character, neither across a separator, everything else itself up to case |
| `Tree.PrunedIsFiltered` | rust/src/server.rs:671-706 | for every tree, closed ignore test and stack the pruned walk emits, in order, exactly the kept part of the full walk |
| `Tree.StackIsRecursion` | rust/src/server.rs:671-706 | the explicit stack walks as a recursion does: depth first, the events of a directory together, its folders from the last to the first, each with everything below it |
| `Tree.WalkReaches` | rust/src/server.rs:671-706 | the full walk comes to exactly the directories and files the tree holds |
| `Tree.WalkOnce` | rust/src/server.rs:671-706 | and to each of them once |
| `Tree.WalkIsExact` | rust/src/server.rs:671-706 | the walk of a shared folder offers every file that is not ignored, names every ignored directory below the root, emits nothing else and nothing twice |
| `Bundling.FlattenUnits` | rust/src/server.rs:708-739 | the units, flattened, are the walk's files in order: none lost, repeated or moved |
| `Bundling.FlattenDirs` | rust/src/server.rs:677-690 | the named directories come out in the order of the walk |
| `Bundling.UnitsSized` | rust/src/server.rs:708-739 | a bundle is never empty, has at most 4096 files of at most 1 MiB each and less than 11 MiB in all; a file sent alone is larger than 1 MiB |
| `Bundling.UnitsTimely` | rust/src/server.rs:708-739 | a bundle goes out in the last moment: it has 4096 files or 10485760 bytes, or is the last unit, or is followed by a large file; and no proper part of it from the front had as much |
| `Producer.Classify` | rust/src/server.rs:691-707 | one directory: its folders with their ignore flags and its plain files, in order |
| `Producer.FoldersInOrder` | rust/src/server.rs:671-706 | the shared folders come one after the other, each walked so |
| `Producer.Producer.Walk` | rust/src/server.rs:671-740 | the producer enqueues exactly the units of the pruned walks of all folders |
| `Pass.Pass.SendPass` | rust/src/server.rs:303-416 | serves exactly the same unit sequence; succeeds exactly when the client says enough; in every case its output is a function of what the client has said: units with their replies, then the offer it waits on, none of it queued; totals, consumed replies and compression choices as specified, the latter by a controller that goes on from unit to unit |
| `Pass.SentSnoc` | rust/src/server.rs:303-416 | what one more unit adds to the output: its bytes when its reply is in, its offer when the server waits |
| `Dialogue.SaysItsReplies` | rust/src/client.rs:195-406 | during a pass the client says its replies and nothing else, streaming nothing at all |
| `Dialogue.HearsTheReplies` | rust/src/server.rs:186-200 | fed with them the server hears one reply for each unit that waits, in step, and leaves what follows |
| `Dialogue.ServesThePass` | rust/src/server.rs:303-416 | and then sends exactly the bytes the client expects |
| `Dialogue.CountsThePass` | rust/src/server.rs:303-416 | with the totals the client will confirm |
| `Serving.CfgRoundTrip` | rust/src/client.rs:452-461 | the pushed configuration arrives unchanged, so both ends compile the same ignore patterns |
| `Serving.CfgDefaults` | rust/src/client.rs:452-461 | without a configuration line one stream and nothing ignored; one stream when the count cannot be read; nothing ignored when the specification is missing |
| `Serving.Admits` | rust/src/server.rs:569-577 | who gets in, by the text of the first line: `AUTH` and the right token, or any when none is set; nobody else |
| `Serving.Greet` | rust/src/server.rs:569-581 | admits exactly the holders of the token, pushes the configuration to them and refuses all others |
| `Serving.StreamDelivers` | rust/src/server.rs:794-858 | what a handler sends on hearing the worker's own replies, keepalives anywhere, takes the worker to the effect of the units and to a clean end |
| `Serving.Handler.Run` | rust/src/server.rs:744-860 | mode from the first line, then the units it takes and `NOUNIT`: in every case its output is a function of what the worker has said, with framings, compression choices, totals and consumed replies as specified; never waits with output queued |
| `Session.ServeSync` | rust/src/server.rs:586-617 | the `SYNC` command, plain or cutover: succeeds exactly when the client says enough for its passes, and has in every case sent the specified function of what the client has said, all flushed |
| `Session.HandleSession` | rust/src/server.rs:562-627 | the whole connection behind the handshake: what is sent is in every case the specified function of what the client has said, with fitting framings for every `SYNC` and the compression choices of the configuration, by a controller that is new from the configured margin for every pass; completed exactly when the client is admitted and gets through its commands to `BYE`; never waits with output queued |
| `Session.UnknownCommand` | rust/src/server.rs:583-626 | any line but `SYNC` and `BYE` is answered by `ERR cmd` and nothing else; behind `BYE` nothing is sent |
| `Session.ConversationCloses` | rust/src/server.rs:583-626 | plain or cutover: the server completes, the command loop sends exactly the session bytes, and the client on those bytes ends cleanly having said what the server heard |
| `Progress.OfferSuffices` | rust/src/server.rs:169-200 | an offer alone, whatever follows it, makes the client say its reply |
| `Progress.PassAnswers` | rust/src/server.rs:303-416 | what the server sends on hearing the first k replies of a pass makes the client say the next one |
| `Progress.StreamAnswers` | rust/src/server.rs:794-858 | the same on a parallel stream, with keepalives and in both modes |
| `Growth.ItemsStay` | rust/src/client.rs:492-551 | a client that has more input has said at least as much, a clean end stays what it is: on every stream, malformed ones included |
| `Growth.UnitsStay` | rust/src/client.rs:636-664 | the same for the unit loop of a parallel stream |
| `Growth.CutIsHarmless` | rust/src/client.rs:492-551 | a stream cut short anywhere, even inside a line, never passes for another complete run: what arrived either does not end cleanly, and nothing is deleted, or ends exactly as the whole does |
| `Growth.CommandsGrow` | rust/src/server.rs:583-626 | a server that hears more sends at least as much, over any sequence of commands |
| `Net.NeverStuck` | rust/src/wire.rs:27-79 | for any two ends that fit, over two FIFO channels that carry any piece at any time: in every reachable state a step is enabled or the whole conversation has been said and heard, and every run is finite |
| `Ends.SyncNeverStuck` | rust/src/server.rs:562-627 | session progress, `SYNC` plain and cutover, from `AUTH` to `BYE`: every reachable state of client, server and channels has an enabled step or is the end, a clean run and a completed session |
| `Ends.StreamNeverStuck` | rust/src/server.rs:744-860 | session progress, `QSYNC` and `QSYNC STREAM`: the same for a worker and its handler, whatever units it takes |
| `Ends.ServerEndIs` | rust/src/server.rs:562-627 | the server end of that product sends what `HandleSession` sends to a client that has said the same |
| `Source.EventsAreExact` | rust/src/server.rs:671-740 | over all shared folders: every file that is not ignored and every ignored directory below a folder comes once, and nothing else |
| `Source.UnitsTravel` | rust/src/server.rs:708-739 | whatever shareable folders hold, the units can be put on the wire |
| `Source.DocsDistinct` | rust/src/server.rs:708-739 | no two offered files land at the same place |
| `Source.PassRoots` | rust/src/client.rs:104-110 | the mirror roots of a pass are exactly the folders it offers something of |
| `Source.RecordedIff` | rust/src/client.rs:104-110 | a folder is a mirror root exactly when it holds a file that is not ignored or, below itself, an ignored directory |
| `Source.SourceIsMirrored` | rust/src/client.rs:492-551 | from folders to destination: after the run over the pass's bytes each path holds the source's file if there is one not ignored (fetched unless a copy of its length and tick count was there), nothing if its folder is a mirror root and it is not ignored, and else what it held before |
| `Source.EveryFileArrives` | rust/src/client.rs:41-54 | after the run every source file that is not ignored, can be read, has its announced length and is dated 1970 or later is there with that length and tick count, and with the source's bytes unless a file of that length and tick count was there before |
| `Source.EmptiedFolderKeepsItsFiles` | rust/src/client.rs:409-416 | a folder with nothing to offer, among any others, keeps everything the destination has below it |
| `Source.FolderIsMirroredIff` | rust/src/client.rs:409-416 | folder by folder: nothing stale is left below it exactly when it has something to offer or nothing stale was there before |
| `Source.ResyncOfFolders` | rust/src/client.rs:492-551 | from folders: a second run over unchanged readable folders without files older than 1970 fetches nothing and deletes nothing |
| `Parallel.UnitsAreConserved` | rust/src/server.rs:646-668 | in every reachable state a unit off the queue is with exactly one connection once, the queue is in order and never above 256 although test and push are separate |
| `Parallel.CleanFinishDrains` | rust/src/server.rs:928-933 | the accept loop's clean finish implies that every unit was produced and taken |
| `Parallel.ServerClosesLast` | rust/src/server.rs:928-945 | in every reachable state in which the server has stopped accepting all its handlers are back; it has stopped cleanly only after a connection and with everything produced and taken |
| `Parallel.NoHalfFilePasses` | rust/src/client.rs:636-676 | over every run, failures included: a stream that ends before it was given a unit ends well, one that breaks off inside a unit does not, and a file is as it was, complete with the time it was offered with, or dated by the attempt |
| `Parallel.OneHolder` | rust/src/server.rs:658-660 | no two connections ever take the same unit |
| `Parallel.AlwaysConserved` | rust/src/server.rs:797-815 | conservation is kept by every step of every interleaving |
| `Liveness.ParallelNeverStuck` | rust/src/server.rs:863-948 | progress of the parallel mode: in every state any interleaving reaches without a failure, once there is a connection, the session is over or some step is enabled that brings it nearer to its end, polling and new connections not counted |
| `Liveness.ParallelEnds` | rust/src/server.rs:863-948 | every run of such steps is finite, and one that cannot go on has ended the session: all produced, all streams told, all workers done, the doors closed |
| `Liveness.NothingRaises` | rust/src/server.rs:646-668 | no other step sets the session back, failures included; only a new connection and an idle look do |
| `Liveness.ProducerFinishesIff` | rust/src/server.rs:933-945 | once the server has stopped accepting, the producer it joins can come to its end exactly when the units nobody has taken fit into the queue; otherwise the server hangs for good |
| `Liveness.IdleTimeoutEndsIff` | rust/src/server.rs:938-945 | without any client the idle timeout ends the server exactly when there are at most 256 units |
| `Confluence.ReachableIsGood` | rust/src/client.rs:636-676 | in every reachable state the shared sets are the union of what the workers did, and each path is as before, as due, being written, or part of a lost unit |
| `Confluence.LookIsFaithful` | rust/src/client.rs:229-240 | a worker's decision to fetch is the one it would have taken at the start, whatever the others do |
| `Confluence.AnyInterleavingIsSync` | rust/src/client.rs:703-765 | confluence: if every unit is delivered, files, directories, offered set and roots are those of a single stream, for every interleaving and wherever connections fail |
| `Confluence.FreshParallelIsSync` | rust/src/client.rs:575-586 | streaming into an empty destination ends where the ordinary single stream ends |
| `Deletion.DeletionIsExact` | rust/src/client.rs:752-768 | after any parallel run a file is gone exactly when the run was clean and the file lay under a root of a delivered unit, was not ignored and was no target of a delivered unit |
| `Deletion.DeletesTheStaleIff` | rust/src/client.rs:752-768 | a clean run deletes exactly what the source no longer offers if and only if no undelivered unit offers a file that is present, not ignored and under a recorded root |
| `Deletion.WhereUndelivered` | rust/src/client.rs:666-675 | in a clean run an undelivered unit was never taken from the queue, or was taken by a stream that delivered nothing |
| `Deletion.AllDeliveredIff` | rust/src/client.rs:666-675 | a clean run has delivered every unit exactly when the queue is drained and no stream that delivered nothing has a unit held or lost; streams told `NOUNIT` at once do no harm |
| `Deletion.DrainedRunIsExact` | rust/src/server.rs:928-933 | such a run deletes exactly what the source no longer offers |
| `Deletion.FailureAfterAUnit` | rust/src/client.rs:666-675 | a stream that fails once it was given a unit makes the run unclean for good: nothing is deleted whatever happens next |
| `Deletion.NoUnitDoesNotDrain` | rust/src/server.rs:797-815 | a run in which every stream ends with `NOUNIT`, one unit stays in the queue, and a file the source still offers is deleted |
| `Deletion.ParallelIsSync` | rust/src/client.rs:703-785 | a clean parallel run that delivered every unit leaves the files the single stream leaves, mirror step included |
| `EndToEnd.ParallelMirrorsSource` | rust/src/client.rs:703-785 | and so, from shared folders to destination, it mirrors the source for every interleaving |
| `Jsonc.StripJsonc` | rust/src/config.rs:12-57 | the scanner's output is the text with exactly its comments dropped |
| `Jsonc.OneSegmentation` | rust/src/config.rs:12-57 | there is exactly one way to read a text as strings, comments and other characters: a string runs through its first quote without an odd run of escapes before it, a line comment up to the line break, a block comment through the first terminator |
| `Jsonc.HeadIff` | rust/src/config.rs:12-57 | the piece the scanner sees at the front of a text is the one its characters make it |
| `Jsonc.StrippedPieces` | rust/src/config.rs:12-57 | what is left falls apart into exactly the kept pieces of the original, verbatim and in order, string literals (section 7 of RFC 8259) included |
| `Jsonc.CommentsGo` | rust/src/config.rs:12-57 | no comment is left, and whatever one selects among the other pieces is selected in the same order from the stripped text |
| `Jsonc.StripIsIdempotent` | rust/src/config.rs:12-57 | stripping twice is stripping once |

## Left out

- TLS, certificate pinning, sockets, address filters, timeouts, sleeps and the moment keepalives are sent: a
  keepalive is a line that may appear wherever the code sends one.
- UTF-8: invalid bytes are not replaced, and trimming knows the ASCII white space only.
- Windows: case folding of paths, drive prefixes, short names and the native separator on the wire. Paths
  render with `/`, and `norm_key` is the identity.
- File-system trouble: links, permissions, files that cannot be created or removed, times that cannot be set or
  read, a name that is a file on one side and a folder on the other. A file that cannot be opened for reading
  is modelled.
- Files that change while a pass runs, except that the raw form is described for any content read. The shared
  folders may differ between the two passes of a cutover.
- Write errors of the transport: a failing peer is a stream that ends.
- The destination must not be the file-system root: `Paths.SafeJoinByText` says what is accepted there.
- Shared folders with equal names, and names a control line cannot carry (`Source.Sendable`): the theorems from
  folder to destination ask for distinct names without separators, without line breaks, and not ending in a
  carriage return.
- zstd and the regular-expression engine beyond their laws; the list of incompressible extensions is any
  predicate on names.
- The wall clock and floating point: seconds, margin and spare are reals, so rounding and not-a-number margins
  are not modelled.
- Overflow of byte counters, and 32-bit wrap-around of the controller's counters, which stay below 64.
- JSON parsing, upgrading configuration files, token and fingerprint text, the command line, the C interface,
  progress output and the final summary lines.
- `send_from_reader` of the connection, which nothing calls.
- The PowerShell programs, the benchmarks and the example proxy.
- `Net.NeverStuck`: the channels hold any amount, so a transport that blocks a writer until its peer reads is not
  modelled; the choices of framing and keepalives are fixed for a run, every choice being covered.
- `Ends.SyncNeverStuck`: for a client whose token is accepted; the choice between one stream and several, which the
  client makes from the configuration line, is left out.
- `Liveness.ParallelNeverStuck`: counts units, not bytes; the bytes of one connection are in `Ends.StreamNeverStuck`.
- `Convergence.SyncConverges`: counters of the two ends are compared separately, in `Tally.PassAccounts`.
- `Confluence.AnyInterleavingIsSync`: compares files, directories, the offered set and the roots; the sum of the workers'
  counters is not modelled in the parallel step system.
- `Ignore.EntryIgnores`: entries with several `**`, or with one inside a part or at either end, are given by their
  tokens only (`Ignore.GlobToRegex`).
- `Serving.Handler.Run`: the handlers of a parallel run share one controller, whose other callers are not part of one
  handler's run; so the level of a bundle is only said to be one the controller can be at. Any interleaving of calls
  is covered by `Control.AnyInterleavingIsLegal` and `Control.CallMovesLevel`.
- `Parallel.AlwaysConserved`: the step system lets a handler run ahead of its worker even where the want-mask makes
  it wait, which only adds interleavings.
- `Source.SourceIsMirrored`: directories are recreated by `Receiver.HandleDir` but empty source directories that are not
  ignored are not sent by the program, and the theorem speaks of files.
