# What the page knows about its guest, proved

A Linux guest runs in a browser tab behind a serial console. The page types at that
console on the user's behalf - to save and restore work, to take checkpoints, to tell the
guest the size of the terminal - and must not type into something that is not a prompt,
lose a byte, or leave the machine stopped. This project models the code that decides all
that and proves what it promises, over every byte stream, every resize, every lost answer
and every paste that throws.

**The terminal model** (`web/serialtap.js`). `Parser` is the control-sequence reader,
`Cells` and `Terminal` the screen as a value - every operation keeps `Grid`, the right
number of rows and everything in range - and `Reading` the cursor's line and the question
"is this an idle prompt?". `SerialTap` is the same code as it is written: a buffer of lines
with a moving base, mutable fields, rows and cells spliced in loops, each method proved to
do what the function of its operation does. About that function: `Trimming` and `Resizing`
compare the screen with one that never trims its scrollback, `Typing` reads printed text
back whatever the width, `SavedCursor` says when a restored cursor can be trusted,
`Orphans` that no right half of a wide character loses its left, and `ShellWord` that the
shell's word is heard just as sent and outlasts everything on the screen. `Prompts` says of
the cells what a prompt is, and `ShellTexts` of the guest's bytes whose the terminal is.
`Motions`, `Edits` and `Controls` state, of what is sent (`Streams`), where every motion
goes, what every edit does to each cell and row, and what each control and mode does, in
terms of one another and of the line read back; `PromptRuns` has runs that end, or do not
end, at a prompt. The grammar is
that of ECMA-48, sections 5.4 and 5.6; the shell's messages are OSC 3008 of UAPI.15.

**The console protocols** (`web/serialfs.js`). `Cksum` (POSIX.1-2017, `cksum`, over
bit-vectors; the algebra of feedback registers is in `Feedback`), `Base64` (RFC 4648,
section 4), `Upload` (blocks acknowledged one at a time into a 4096-byte tty buffer),
`Framing` (the download found again in a console full of other text) and `Download` (from
the guest's bytes to the page's), `Echoes` (no pasted command shows a marker it prints),
`Mux` and `Checkpoint` (Ctrl-A, the monitor, and
everything that can go wrong between them - every byte the page types goes through the
mux, and an oracle decides at each paste whether it throws and at each wait whether an
answer comes; `CheckpointLines` are the lines in full). `CheckpointLaws` proves what each step keeps, `CheckpointSafety` says it of
the log of everything typed and of whole sessions, `CheckpointSlot` of the snapshot itself,
`CheckpointSync` that nothing is typed at the guest but at a prompt that came,
`CheckpointCrossing` when exactly the page loses track of its side, and `CheckpointLimits`
where else the laws stop. `SerialFs` is the imperative form.

**Taking turns at the console** (`web/serialfs.js`, `web/termfit.js`). `Scripts` is a small
language of async functions - awaits, throws at any call or paste, nested finally blocks -
run to the end at once and one statement at a time, proved to agree; `Errands` writes save,
load, checkpoint and rollback in it and proves what a save or a load leaves of the console;
`GeomSync` is the object that tells the guest the size of the terminal; `Typists` puts the
four and the size on one event loop; `GuestSize` is about what the page then believes of the
guest's size, which a `loadvm` puts back behind its back, and `GuestSizeRuns` has runs in
which that goes wrong.

**The session diff and restore** (`state.py`). `Identity` and `Fingerprint` name a build,
`Baseline` writes and reads its baseline, `Selection` and `Unpacking` decide what comes
out of an archive, `Names` says it of the names piece by piece, `Trees` extracts and
deletes, `Session` puts a save and a restore together, and `Deletions` says which paths a
restore may delete. `Texts`, `Sequences` and `Decimals` hold what they share.

Where the code and its documentation part, the code is modelled, and what is true of it is
proved exactly:

- Growing a terminal pulls rows back out of the scrollback. A screen that has trimmed may
  run out where one that never trims would not; `Resizing.OverpullParts` says exactly when
  the two part, and `Resizing.TheyPart` that they do. Between resizes they never do.
- Text past 32768 bytes is not the base64 encoding of the whole: `Base64.PageTextIsStandard`.
- The length folded into the checksum is POSIX's up to 2^32 bytes, because the loop's shift
  is a 32-bit one: `Cksum.FoldsPosixOctets`.
- The page can lose track of which side of the mux it is on. A switch back thrown out of
  after a Ctrl-A leaves the mux holding it, and if a `cont` is still due the finally types
  one: its `c` switches to the shell, and the switch back after it into the monitor.
  `CheckpointSafety.CheckpointIsSafe` and `CheckpointSafety.RollbackIsSafe` are exact up to
  that guard, `CheckpointCrossing.CheckpointCrossing` says what comes to it, and
  `CheckpointCrossing.FocusCanPart` is a run.
- A switch back that throws leaves the page in the monitor, and the next checkpoint types
  its shell line there, the next rollback its stop at the shell:
  `CheckpointLimits.StuckInTheMonitor`, and `CheckpointLimits.StopAtTheShell` is a run.
- No `cont` follows a failed `loadvm` within one rollback; across two it does exactly if the
  second's keys go through and its switch or its `stop` goes unanswered:
  `CheckpointLimits.NotAcrossRollbacks`.
- The page's record of its checkpoint can be wrong in one case only, which
  `CheckpointSlot.CheckpointKeepsTheBooks` names.
- A restore on the same build is not exact when a deleted directory holds something a save
  never looks at: `Session.SameBuildRestoresTheSession`, and `Session.SshComesBack` for one.
- A size whose paste throws is given up, not retried: `GuestSize.NoResizeIsLost`, and
  `GuestSizeRuns.ResizeLost` is a step that loses one.
- What the page believes of the guest's size can be wrong, and then stays so. The re-sync
  line takes the size down as told before it is pasted; and going back to a checkpoint
  brings back the size it was taken at, which nothing corrects if no re-sync follows.
  `GuestSize.BeliefIsRight` says exactly when, `GuestSizeRuns.ResyncTorn` and
  `GuestSizeRuns.GuestLeftBehind` are runs of either kind.

## Model

| member | source | states |
|---|---|---|
| Terminal.ApplyAll | web/serialtap.js:150-190 | Over every run of parsed actions and resizes the grid stands: both buffers hold exactly the screen's rows, cursor and region in range |
| SerialTap.Tap.constructor | web/serialtap.js:474-486 | A new screen of the usable geometry, empty, nothing said by the shell |
| SerialTap.Tap.Write | web/serialtap.js:401-444 | A chunk first fits the screen to the geometry of the moment, then feeds every code point: fields and buffers end as the specification says |
| SerialTap.Tap.FitTo | web/serialtap.js:170-190 | The two loops over both buffers end, and leave what the closed form of a resize says |
| SerialTap.LineBuffer.Refit | web/serialtap.js:175-185 | Growing and shrinking one row at a time comes to the closed form, cursor row included |
| SerialTap.Tap.ScrollUpBy | web/serialtap.js:195-209 | Splicing, moving the base and trimming in place is the value-level scroll; rows reach the scrollback exactly when the region starts at the top |
| SerialTap.Tap.PrintChar | web/serialtap.js:229-255 | Deferred wrap, insert mode, wide and combining characters, in place |
| SerialTap.Tap.SetMode | web/serialtap.js:277-289 | Autowrap, origin mode, the alternate screen and its saved cursor, in place |
| SerialTap.Tap.Dispatch | web/serialtap.js:291-373 | Every final byte does to the fields what the specification says - which `Motions`, `Edits` and `Controls` say again of what is sent - and no other does anything |
| SerialTap.Tap.ReadCursorLine | web/serialtap.js:453-467 | The loops over rows and cells read the specification's cursor line, sureness included |
| SerialTap.Tap.PromptIsIdle | web/serialtap.js:584-588 | The answer is yes if and only if the screen shows a prompt: the specification's, and that of the cells |
| SerialTap.EraseCells | web/serialtap.js:116-121 | Blanking in place, half characters at either edge cleared, equals the value-level erase |
| Prompts.IdleIsPrompt | web/serialtap.js:453-588 | Said of the cells alone: a screen is an idle prompt if and only if it is the main one, known and not handed to a command, the text left of the cursor on its whole line is one the pattern takes, and every cell right of it and on every row below is white space |
| Prompts.AnythingElseIsNoPrompt | web/serialtap.js:584-588 | One visible cell right of the cursor or on a lower row, and it is no prompt |
| Prompts.TypedIsNoPrompt | web/serialtap.js:539-549 | A prompt with anything at all typed after it no longer reads as one |
| PromptRuns.EditorIsNoPrompt | web/serialtap.js:553-557 | On a new terminal of any size `# ` is a prompt, until an editor draws its status line on a lower row and puts the cursor back |
| PromptRuns.DrawnBelowIsNoPrompt | web/serialtap.js:553-557 | From any prompt, a visible character put anywhere on a lower row, the cursor back where it was, makes it none |
| PromptRuns.TypedAndTakenBack | web/serialtap.js:536-557 | Typing at a prompt makes it busy; moving back over what was typed and erasing to the end of the line makes it idle again |
| PromptRuns.StringsDrawNothing | web/serialtap.js:414-427 | Whatever is in a DCS, SOS, PM or APC, a BEL included, nothing of it reaches the screen or the context |
| Motions.RewritesBack | web/serialtap.js:305-317 | After text on a fresh row, k columns left and more text, the line reads back with its last columns typed over |
| Motions.RedrawnReadsOnce | web/serialtap.js:14-16 | After any prompt the monitor's redraws of any word - c, co, con, cont - read as that word once |
| Motions.WrittenOnceAtTheMargin | web/serialtap.js:20-26 | A character written past the right margin, a return, and the same character again leave the screen as if it had been written once |
| Motions.ThereAndBack | web/serialtap.js:310-311 | Right and left by any number undo each other where no edge is met |
| Motions.DownAndUp | web/serialtap.js:303-309 | Down and up undo each other inside the region |
| Motions.NoNumberIsOne | web/serialtap.js:298-299 | A motion without a number, or with a nought, is a motion by one |
| Motions.SameFinals | web/serialtap.js:308-316 | HPR is CUF, VPR is CUD, HPA is CHA and HVP is CUP |
| Motions.LinesAreReturns | web/serialtap.js:312-313 | CNL is CUD and a return, CPL is CUU and a return |
| Motions.BackspaceIsLeft | web/serialtap.js:257-260 | A backspace is one column left |
| Motions.AddressedPrint | web/serialtap.js:302-316 | An address and a character: the character is at that row and column, counted from 1 and in origin mode from the region's top; no half of a wide one it cut in two is left, and nothing else on the screen changes |
| Motions.AddressInTwo | web/serialtap.js:314-316 | CUP is VPA and then CHA |
| Edits.LineErased | web/serialtap.js:334-338 | EL, cell by cell: which are blank, what is left at the edges, what stays |
| Edits.CellsEdited | web/serialtap.js:339-348 | ECH, ICH and DCH, cell by cell: which go, which stay, and where the others move |
| Edits.LinesEdited | web/serialtap.js:349-361 | IL and DL, row by row: the rows from the cursor's to the bottom of the region move by the number given; outside the region nothing happens |
| Edits.Scrolled | web/serialtap.js:362-363 | SU moves the region up, its rows in order into the scrollback if it starts at the top row; SD moves it down |
| Edits.DisplayErased | web/serialtap.js:317-333 | ED, row by row and on the cursor's row cell by cell; when the row stops continuing the one above; when the model is sure again |
| Controls.FeedsLine | web/serialtap.js:217-222 | A line feed goes down a row, or at the bottom of the region scrolls it; from the first column it makes the line known |
| Controls.FeedsBack | web/serialtap.js:223-227 | A reverse index goes up a row, or at the top of the region scrolls it down |
| Controls.SameFeeds | web/serialtap.js:261-261 | VT, FF, IND and ESC D are a line feed |
| Controls.SameReturns | web/serialtap.js:385-396 | NEL and ESC E are a return and a line feed, and ESC M is RI |
| Controls.Tabs | web/serialtap.js:260-260 | A tab goes to the next multiple of eight, or the last column |
| Controls.Margins | web/serialtap.js:364-368 | DECSTBM sets the region to two rows in order and homes the cursor; otherwise nothing |
| Controls.NoMargins | web/serialtap.js:364-368 | Without numbers the whole screen is the region |
| Controls.SameSaves | web/serialtap.js:369-370 | ESC 7 and ESC 8 are CSI s and CSI u |
| Controls.SavedComesBack | web/serialtap.js:270-275 | Row, column and origin mode come back as saved, whatever came between, short of a save, a scroll of the main screen or a change of buffers |
| Controls.WrapAndOrigin | web/serialtap.js:277-279 | Autowrap and origin mode are set and reset, the second homing the cursor |
| Controls.WrapsRound | web/serialtap.js:238-244 | Past the last column a character goes to the first of the next row, which then continues the line |
| Controls.StaysAtTheEdge | web/serialtap.js:244-244 | With autowrap off it is written over the last column |
| Controls.InsertIsPush | web/serialtap.js:246-251 | Printing in insert mode is ICH and then printing |
| Controls.InsertMode | web/serialtap.js:371-371 | Insert mode is set and reset |
| Controls.FullReset | web/serialtap.js:159-164 | RIS leaves nothing on the screen or behind it, every mode at its default, and what the shell said as it was |
| Controls.SoftResets | web/serialtap.js:292-295 | DECSTR puts region and modes back and forgets the saved cursor, and touches nothing else |
| Controls.Resized | web/serialtap.js:170-190 | A resize makes the whole screen the region and keeps every mode and saved cursor |
| Controls.IdleResized | web/serialtap.js:174-186 | While another screen is up the main one, resized, loses no row and gains only blank ones at the bottom |
| Controls.SizedSays | web/serialtap.js:145-149 | The size the page reports is a 32-bit number, 0 standing for the default, and none is too small |
| Controls.MarkedDoesNothing | web/serialtap.js:296-301 | With intermediates nothing is done but the soft reset, with a private mark nothing but modes |
| Controls.OthersDoNothing | web/serialtap.js:307-373 | Finals that are not known change nothing |
| Controls.TrackingIsNotScrolling | web/serialtap.js:363-363 | SD with more than one number is not done |
| Controls.OneByteForms | web/serialtap.js:408-410 | The one-byte C1 controls open what their two-byte forms open |
| Controls.Designates | web/serialtap.js:398-398 | Designating a character set draws nothing |
| Controls.ControlsActInside | web/serialtap.js:429-430 | A control in the middle of a sequence acts at once, and the sequence goes on |
| Controls.Abandoned | web/serialtap.js:412-413 | CAN or SUB abandons a sequence with nothing done |
| Controls.AltScreen | web/serialtap.js:280-287 | 47 and 1047 put up a blank screen, unless it is up, and take it down |
| Controls.AltScreenAndCursor | web/serialtap.js:281-287 | 1049 is that with a cursor saved before and restored after |
| Controls.ModesInTurn | web/serialtap.js:300-300 | Two modes in one sequence are set in turn |
| Controls.ThereAndBackAgain | web/serialtap.js:277-289 | Whatever a full-screen program does on the alternate screen, on its return the main one, its scrollback and its cursor are where they were |
| Reading.FeedSplits | web/serialtap.js:385-444 | What is parsed never depends on the grid or the geometry, and the grid only on what is parsed |
| Reading.ChunkingIsInvisible | web/serialtap.js:401-444 | However output is cut into chunks at one geometry, parser and screen end the same |
| Reading.KeepsGeometry | web/serialtap.js:401-444 | No stream changes the geometry or the limit on the scrollback |
| Trimming.TrimmedRefinesUntrimmed | web/serialtap.js:195-209 | Over every run whose resizes ask for no more scrollback than is held, the screen is the never-trimming one less rows off the top |
| Trimming.ScrollbackBounded | web/serialtap.js:200-203 | At fixed geometry no stream makes the scrollback more than its limit and 64 rows |
| Trimming.SureMeansUntrimmedAgrees | web/serialtap.js:453-467 | Every stream: cursor, modes and visible rows agree with the never-trimming screen, the rows held are a suffix of its rows, a line that is sure reads the same there, and an idle prompt here is one there |
| Resizing.ResizeKeepsTheLine | web/serialtap.js:170-190 | A resize that drops no row of the cursor's line leaves it reading the same, exactly as sure |
| Resizing.OverpullParts | web/serialtap.js:177-180 | A resize keeps the two screens together if and only if it pulls no more scrollback than is left, or nothing was trimmed |
| Resizing.TheyPart | web/serialtap.js:177-203 | On a screen of any size, enough line feeds to trim once and a resize by more than the limit are such a run |
| Typing.PrintedReadsBack | web/serialtap.js:229-255 | Narrow, wide and combining text printed on a fresh line of any screen at least 2 wide reads back as itself or is not sure - and is sure whenever the scrollback had room for it |
| Typing.PrintedReadsBackUntrimmed | web/serialtap.js:453-467 | On a screen that never trims it reads back exactly and surely |
| SavedCursor.VouchedAlways | web/serialtap.js:136-143 | An unchanged `moves` since the main screen's save means the same scrollback and the same geometry, through every stream, resize and alternate screen |
| SavedCursor.RestoreIsRightOrUnsure | web/serialtap.js:270-289 | A restore that stays sure lands on the very row of the whole buffer that was saved, on the main screen and on the way back to it from the alternate one |
| Orphans.NoOrphanEver | web/serialtap.js:116-121 | Over every run, a cell holding the right half of a wide character has a non-empty character directly to its left |
| ShellWord.FramedIsHeard | web/serialtap.js:412-426 | Every way of framing an OSC, with controls inside its introducer, is heard as the same message and leaves the parser at rest |
| ShellWord.HeardWasFramed | web/serialtap.js:414-426 | A message is heard only where one was written, introducer, body and end |
| ShellWord.ContextIsLastWord | web/serialtap.js:380-383 | Whose the terminal is, is what the last complete start message said; `ShellTexts` says which texts say what |
| ShellWord.NoPromptUntilTheShellReturns | web/serialtap.js:584-588 | Once the terminal is handed over, nothing on the screen is a prompt until the shell says it is back - across resets, clears and alternate screens |
| ShellTexts.StartIsHeard | web/serialtap.js:380-383 | However framed, `3008;start=` with any id and any fields gives the terminal to the shell if one field is exactly `type=shell`, and to a command if none is |
| ShellTexts.OthersSayNothing | web/serialtap.js:381-381 | No other message changes whose it is |
| ShellTexts.ContextNeedsAWord | web/serialtap.js:374-383 | Over every stream the context moves to the shell only if the guest wrote such a start with `type=shell` in it, framed, and to a command only if it wrote one without |
| ShellTexts.NoPromptBetween | web/serialtap.js:566-588 | From a framed start without `type=shell` until the guest writes one with it, no screen is a prompt |
| ShellTexts.NeverHandedOver | web/serialtap.js:566-588 | Where no start without it was ever written, the context never stands in the way |
| Cksum.MakeTable | web/serialfs.js:185-193 | The two loops fill the table with eight shifts of each byte |
| Cksum.Compute | web/serialfs.js:195-200 | The loops over bytes and length octets compute the specified sum |
| Cksum.TableIsDivision | web/serialfs.js:185-200 | The table-driven sum is bit-serial division by 0x04C11DB7 of bytes and length octets, whenever the octets folded are POSIX's |
| Cksum.FoldsPosixOctets | web/serialfs.js:198 | They are exactly for lengths below 2^32 |
| Cksum.WindowDetected | web/serialfs.js:195-200 | Two inputs of one length that differ only inside four consecutive bytes never have the same sum |
| Base64.EncodeInChunks | web/serialfs.js:202-208 | The loop yields the concatenation of each chunk's own padded encoding |
| Base64.ChunkedDecodes | web/serialfs.js:202-208 | Read quad by quad it decodes to the bytes, for every length and chunk size |
| Base64.ChunkedIsStandard | web/serialfs.js:202-208 | It is the encoding of the whole if and only if there is one chunk or the chunk size is a multiple of three |
| Base64.PageTextIsStandard | web/serialfs.js:204 | With chunks of 0x8000 bytes: exactly up to 32768 bytes, and it always decodes |
| Upload.BuildPayload | web/serialfs.js:356-357 | The loop breaks a slice into lines of 512, each ended |
| Upload.AlwaysReachable | web/serialfs.js:352-371 | Every interleaving of page, wire, tty and reader stays within the protocol, with nothing dropped by the tty |
| Upload.NothingIsLost | web/serialfs.js:356-367 | In every such state at most 2052 payload bytes are unread and the file, newlines aside, is a prefix of the text |
| Upload.DeliversExactly | web/serialfs.js:340-371 | When the page is done, the guest's file decodes to the very bytes |
| Upload.NeverStuck | web/serialfs.js:360-367 | Until then, some step other than giving up is always there to take |
| Upload.EveryStepCounts | web/serialfs.js:353-371 | Every step brings the end nearer, so an upload nobody gives up on ends |
| Framing.NothingTooSoon | web/serialfs.js:292-294 | Until the end marker is complete the pattern matches nowhere in what has arrived |
| Framing.FrameIsFound | web/serialfs.js:292-306 | From then on, whatever follows, its leftmost match yields exactly the length, the checksum and the text the guest printed |
| Download.DownloadArrives | web/serialfs.js:292-315 | An archive printed with its length, its sum and its base64 text, however the console breaks that, is what the page captures first, decodes and takes, byte for byte |
| Download.DamageIsRefused | web/serialfs.js:305-313 | Anything else that decodes is not taken if its length is another or it differs only inside four consecutive bytes |
| Echoes.CommandHides | web/serialfs.js:95-98 | A command put together from shell text and markers, no part of which says W, shows no marker when it is echoed |
| Echoes.SaveHidesItsMarkers | web/serialfs.js:273-281 | The echo of the whole save command holds no marker, of a download or an upload |
| Echoes.LoadHidesItsMarkers | web/serialfs.js:342-402 | Nor does that of any command of a load, whatever the length of the block it announces |
| Echoes.HiddenHasNoMark | web/serialfs.js:89-98 | Text in which no marker begins holds none of the ten the page looks for |
| Mux.SwitchesOnce | web/serialfs.js:503-516 | Ctrl-A NUL Ctrl-A c switches exactly once and leaves nothing held, from either side, with or without a Ctrl-A held |
| Mux.HeldCtrlAWouldBreakIt | web/serialfs.js:490-497 | Without the NUL a held Ctrl-A swallows the switch |
| Mux.BracketedNeverSwitches | web/serialfs.js:504-507 | With bracketed paste on, the four keys switch nothing |
| CheckpointLines.LineMeansFirst | web/serialfs.js:535-596 | To the mux a line the page types is its first byte: the rest of it, the time and the size in the re-sync line included, holds no Ctrl-A |
| CheckpointLaws.LeaveHolds | web/serialfs.js:555-564 | Unless it crosses, leaving tries the cont that is due, never one after an unclean loadvm, and ends outside unless it throws, sure of its side |
| CheckpointLaws.LeaveCrosses | web/serialfs.js:555-564 | With a Ctrl-A held and a cont due, its paste going through, it always ends on the other side from the one the page believes in; every stop has still had its cont |
| CheckpointSafety.CheckpointIsSafe | web/serialfs.js:615-669 | Whatever the monitor answers and wherever a paste throws: every stop is followed by a cont tried at the monitor and the console let go of. Every command goes whole to the monitor and every shell line to the shell, savevm only over the layer, the layer never again once it succeeded, and the page knows its side, if and only if no cont crosses; and it is back on the serial side, ready for the next, if and only if besides its last switch back did not throw |
| CheckpointSafety.RollbackIsSafe | web/serialfs.js:671-724 | The same, and no cont is tried from a loadvm until its clean answer; only then may a stop go without its cont |
| CheckpointSafety.SessionIsSafe | web/serialfs.js:475-479 | A session, the user pressing Ctrl-A in between, stays ready throughout if and only if no cont crosses and no last switch back throws; and then the focus the page believes in is the real one and nothing unsafe is ever typed |
| CheckpointCrossing.CheckpointCrossing | web/serialfs.js:503-516 | A cont crosses if and only if the body's switch back was thrown out of at its second or fourth key while the machine was paused, and the finally's paste of the cont goes through |
| CheckpointCrossing.RollbackCrossing | web/serialfs.js:671-724 | The same of a rollback, when it may set the machine going |
| CheckpointCrossing.FocusCanPart | web/serialfs.js:555-564 | A run, of one unanswered cont and one thrown paste, that ends in the monitor with the page sure it is at the shell |
| CheckpointSlot.CheckpointKeepsTheBooks | web/serialfs.js:639-651 | Afterwards a recorded checkpoint has its snapshot, except exactly when the failed savevm took the old one and the paste of the list that would have told threw |
| CheckpointSlot.SessionKeepsTheBooks | web/serialfs.js:475-479 | Through any session whose every operation comes back out of the monitor, and without such a loss, the record is right |
| CheckpointSlot.CheckpointSucceeds | web/serialfs.js:652-665 | A checkpoint that reports success left a snapshot in the slot, the machine running, the page on the serial side |
| CheckpointSlot.RollbackKeepsTheCheckpoint | web/serialfs.js:671-724 | Going back never spends the checkpoint |
| CheckpointSlot.RollbackSucceeds | web/serialfs.js:681-720 | A rollback that reports success left the machine running on the serial side with its checkpoint still there |
| CheckpointLimits.NotAcrossRollbacks | web/serialfs.js:671-724 | After a rollback whose loadvm never answered cleanly, the next one tries a cont if and only if its four keys go through and not all of switch, stop paste and stop are answered and go through |
| CheckpointLimits.TwoRollbacks | web/serialfs.js:476-477 | Two such pairs of runs |
| CheckpointLimits.StuckInTheMonitor | web/serialfs.js:666-722 | A checkpoint leaves the page in the monitor if and only if its last switch back throws; the next checkpoint then tries its shell line there, and its stop at the shell if and only if that line is answered and the keys go through; a rollback its stop at the shell if and only if the keys go through, and its loadvm if and only if that stop gets an answer too |
| CheckpointLimits.StopAtTheShell | web/serialfs.js:555-564 | A run in which both switches back throw, and the next checkpoint's stop is typed at the shell |
| CheckpointLimits.CheckpointCanBeLostUnnoticed | web/serialfs.js:645-646 | A run in which the recorded checkpoint is gone |
| CheckpointSync.CheckpointAsksFirst | web/serialfs.js:615-669 | Whatever fails, a checkpoint tries no key of the mux and no command before its own prompt line went through and was answered, and the line that sets clock and size only then and with every answered stop's cont answered |
| CheckpointSync.CheckpointSyncsWhen | web/serialfs.js:622-654 | It tries that line if and only if the prompt came, nothing threw on the way in, through or out, and the page is not left paused |
| CheckpointSync.RollbackAsksFirst | web/serialfs.js:681-711 | A rollback tries that line only right after its own prompt line went through and was answered, with the load answered before that and every answered stop's cont |
| CheckpointSync.RollbackSyncsWhen | web/serialfs.js:711-711 | It tries its prompt line if and only if the load and the way out succeeded, and the other if and only if, then, the prompt's paste and wait did |
| CheckpointSync.CheckpointReports | web/serialfs.js:615-669 | A checkpoint reports success if and only if its prompt came, everything asked of the monitor on the way in was answered without an error, so was the cont, and nothing threw; whether its last line is answered does not matter |
| CheckpointSync.RollbackReports | web/serialfs.js:671-724 | A rollback if and only if the load and the way out succeeded and neither of the two lines after it threw |
| CheckpointSync.WhenAllGoesWell | web/serialfs.js:615-724 | When nothing throws, everything is answered and no command fails, a checkpoint succeeds, and so does going back to one that is there |
| CheckpointSync.NothingWhenTaken | web/serialfs.js:616-672 | With the console taken neither does anything, nor a rollback with nowhere to go |
| SerialFs.Console.RunCommand | web/serialfs.js:535-547 | One command, step by step, does what the specification of `run` says to all ten variables |
| SerialFs.Console.LeaveMonitor | web/serialfs.js:555-564 | The same for `leave` |
| SerialFs.Console.DoCheckpoint | web/serialfs.js:615-669 | The same for a whole checkpoint, its finally included |
| SerialFs.Console.DoRollback | web/serialfs.js:671-724 | The same for a whole rollback; `CheckpointSync` says of its log that it types nothing blind |
| GeomSync.Attempt | web/termfit.js:90-97 | After any attempt with a usable size it is told or a retry is due, unless its paste threw; what is sent is sent only if allowed, and only if new |
| GeomSync.Syncer.Request | web/termfit.js:99 | A request drops the retry due and attempts now |
| Scripts.NextLeadsOn | web/serialfs.js:254-320 | Running a script one statement at a time, through any throw, return and nested finally, leads where running it to its end does |
| Scripts.NextHolds | web/serialfs.js:316-319 | From every point of a script that takes the console, on every way out, the letting go is still ahead until it is run, and nothing after it |
| Errands.SaveLeavesTheConsole | web/serialfs.js:254-320 | Whatever throws or goes unanswered in a save, even in the recovery: `busy` is let go of once; with no prompt nothing but the line asking for one was typed; with one, the last lines tried are the recovery's, in order, interrupts first unless it ended clean |
| Errands.LoadLeavesTheConsole | web/serialfs.js:324-416 | The same of a load of any number of blocks |
| Errands.SaveTypesInOrder | web/serialfs.js:254-315 | Before that a save types the line asking for a prompt and its command, in that order, and ends clean only if both went through |
| Errands.LoadTypesInOrder | web/serialfs.js:335-402 | A load of any number of blocks types each only after it is announced and announces none before the one before it is sent; it ends clean only if all of them and the question for the sum went through |
| Typists.OneTypistAtATime | web/fork/boot.js:56-60 | In every interleaving of saves, loads, checkpoints, rollbacks, resizes and retries, one types at a time and `busy` is held exactly for its turn |
| Typists.AlwaysLetsGo | web/serialfs.js:316-319 | Whatever is left of the errand that has the console and whatever throws in it, given its turns it ends and the console is free |
| Typists.ErrandsAreDone | web/serialfs.js:230-239 | In every interleaving an errand that is over has typed just what its script types alone, let go once, and - a save or a load - put the console back as that script does |
| GuestSize.NoResizeIsLost | web/termfit.js:80-98 | In every interleaving a usable size is told or its telling due at every moment, if and only if no paste of a size throws |
| GuestSizeRuns.ResizeLost | web/termfit.js:95-97 | One step that loses a resize |
| GuestSize.PartsExactly | web/serialfs.js:566-596 | One step makes a right belief about the guest's size wrong if and only if it is a re-sync, of another size, that throws or does nothing, or a load that brings another size back |
| GuestSize.ToldWasSo | web/serialfs.js:566-596 | In every interleaving the belief is right at every moment if and only if there is no such step |
| GuestSize.BeliefIsRight | web/serialfs.js:566-596 | And right at the end if and only if there is none with nothing after it - a size sent, a re-sync that is taken - to put it right |
| GuestSize.RetryLands | web/termfit.js:90-97 | After any interleaving that lost no resize, a retry that finds the console free and at a prompt leaves none due, and the guest with the page's size if and only if the page did not believe that already or believed it rightly |
| GuestSize.WrongForGood | web/termfit.js:93 | Believed wrongly of the size the page has, it stays wrong through any further requests and retries |
| GuestSizeRuns.ResyncTorn | web/serialfs.js:587-596 | A run in which a thrown re-sync leaves the page believing what it never sent |
| GuestSizeRuns.GuestLeftBehind | web/serialfs.js:681-711 | A run with no throw at all - checkpoint, resize, rollback to no prompt - that leaves the guest at the old size for good |
| Identity.Groups | image/seed/usr/local/lib/bashtion/state.py:210-220 | The two dictionaries name every path by the first, in order, of the paths it is hard-linked with |
| Identity.NamesAreThePartition | image/seed/usr/local/lib/bashtion/state.py:207-220 | Two disks give every path the same name if and only if they link the same paths together, whatever the inode numbers |
| Identity.Preimage | image/seed/usr/local/lib/bashtion/state.py:210-225 | The loops write the specified text |
| Identity.OrderDoesNotMatter | image/seed/usr/local/lib/bashtion/state.py:207-210 | Any rearrangement of the rows hashes the same text |
| Identity.SameTextSameBuild | image/seed/usr/local/lib/bashtion/state.py:221-225 | The same text means the same rows, the same fingerprints and the same hard links |
| Fingerprint.FeedXattrs | image/seed/usr/local/lib/bashtion/state.py:257-264 | The loop feeds the count and every name and value with its length |
| Fingerprint.XattrsInjective | image/seed/usr/local/lib/bashtion/state.py:231-232 | No arrangement of attributes passes for another |
| Fingerprint.PrintInjective | image/seed/usr/local/lib/bashtion/state.py:265-266 | A fingerprint shows mode, owner, contents and attributes apart, and fits one field of a row |
| Fingerprint.SameTextSameSeals | image/seed/usr/local/lib/bashtion/state.py:194-266 | Builds hashed from the same text show every path the same |
| Baseline.ReadBaseline | image/seed/usr/local/lib/bashtion/state.py:294-306 | The loop reads the id off a tagged first line and a stamp off every other line of four fields |
| Baseline.ReadsBack | image/seed/usr/local/lib/bashtion/state.py:179-191 | What a build's baseline is written as reads back as its rows and its id |
| Baseline.HeaderRead | image/seed/usr/local/lib/bashtion/state.py:269-276 | An id is read off a line if and only if the line is the tag, a tab and sixty-four lower-case hexadecimal digits |
| Selection.Scan | image/seed/usr/local/lib/bashtion/state.py:494-525 | The loop refuses if and only if some name is refused, and else gathers each tree's root as each name spells it |
| Selection.FullIsEverything | image/seed/usr/local/lib/bashtion/state.py:517-525 | Selecting those roots extracts every member and never the marker, whatever leading ./ the names carry |
| Selection.HomeIsHome | image/seed/usr/local/lib/bashtion/state.py:524-525 | Selecting the home roots extracts exactly the home members |
| Names.CheckSaysOfPieces | image/seed/usr/local/lib/bashtion/state.py:494-525 | A name is accepted if and only if it is the top of the archive, or - any leading ./ and trailing slashes off - pieces none of which is .., . or empty that are the marker's or begin with those of one of the eight trees; and it is the marker, session.json, a member or at home by those pieces alone |
| Unpacking.PlanRestore | image/seed/usr/local/lib/bashtion/state.py:480-559 | Exactly which archives are stopped, by the names as they are listed and the format number; of the others, just the names in the eight trees on a matching build, just those at home on any other, and deletions only on a match |
| Unpacking.ExtractedStays | image/seed/usr/local/lib/bashtion/state.py:543-555 | Nothing a restore extracts, walked piece by piece from /, ever leaves the way to one of the eight trees or that tree - on another build, home |
| Unpacking.PackedPlan | image/seed/usr/local/lib/bashtion/state.py:527-559 | What pack wrote is never stopped, and gives up every walked path and its deletions on the build named in it, the home directory's alone on any other |
| Unpacking.OldRefusesNew | image/test/fixtures/state-format1.py:239-248 | The check before format 2 refuses every archive a format-2 pack writes |
| Unpacking.PackedIsTaken | image/seed/usr/local/lib/bashtion/state.py:364-384 | What pack writes is accepted, marked, with one session.json, and every walked path a member |
| Trees.Disk.Extract | image/seed/usr/local/lib/bashtion/state.py:549-555 | Members laid over the tree one after another |
| Trees.Disk.Replay | image/seed/usr/local/lib/bashtion/state.py:576-589 | The replay loop, refusals counted, rmdir failing on what is not empty |
| Trees.DeletedAre | image/seed/usr/local/lib/bashtion/state.py:573-588 | A descending replay removes exactly what may go and has nothing staying below it: every child is met before its directory |
| Session.ChangedSystemPaths | image/seed/usr/local/lib/bashtion/state.py:309-324 | Kept: just what is walked now and not in the baseline so; deleted: just what is in the baseline and not walked, in order |
| Session.Pack | image/seed/usr/local/lib/bashtion/state.py:327-348 | Read against the baseline file its build was made with, what is packed and recorded is the difference of the tree from the image, under that build's id |
| Session.Unpack | image/seed/usr/local/lib/bashtion/state.py:480-589 | From the names and the metadata pack wrote to the tree left: everything extracted and the deletions replayed on its own build, the home directory's members on any other |
| Session.SameBuildRestoresTheSession | image/seed/usr/local/lib/bashtion/state.py:547-589 | Unpacked on its own build, where no path turns from a directory into something else or back, every system path a save looks at is as saved and every deleted one gone, if and only if no deleted path is a root or a directory over something no save looks at |
| Session.OtherBuildRestoresHomeOnly | image/seed/usr/local/lib/bashtion/state.py:527-559 | Unpacked on any other build, or where either has no valid id, no system path changes and home is overlaid |
| Session.RoundTrip | image/seed/usr/local/lib/bashtion/state.py:327-589 | A session packed and unpacked: on the build it was saved on the tree is the session again, on every system path a save looks at, if and only if nothing it deleted is kept back; on any other the system stands; home is overlaid on both |
| Session.HomeIsOverlaid | image/seed/usr/local/lib/bashtion/state.py:549-559 | Home after any restore is the union: the session's files as saved, the rest left alone |
| Session.RootsStay | image/seed/usr/local/lib/bashtion/state.py:109-130 | Of canonical system paths the deletion guard refuses exactly the roots |
| Session.SshComesBack | image/seed/usr/local/lib/bashtion/state.py:89-98 | The condition bites: of a session that is its image but for /etc/ssh, removed with its host keys, the restore brings /etc/ssh back |
| Deletions.DeletionsStayIn | image/seed/usr/local/lib/bashtion/state.py:109-130 | The guard lets a path be deleted if and only if a save does not skip it and it is absolute, without .., . or an empty piece, and strictly inside one of the six system trees |
| Deletions.DeletionsLead | image/seed/usr/local/lib/bashtion/state.py:113-121 | Walked from / such a path leads to its own pieces |
| Deletions.MachineFilesStand | image/seed/usr/local/lib/bashtion/state.py:80-88 | The machine's ids, caches, host keys and helpers are neither saved nor deleted |

## Left out

- Terminal: `lines()`, `strip`, `install` and `screenOf`; code points arrive whole (the decoder is foreign). Rows are values inside the buffer's `seq`, so two references to one row are not modelled; the code never keeps one.
- Reading: JavaScript's whitespace is the list in `Cells.IsSpace`; the prompt pattern is the predicate `PromptShaped`; `parseInt` is an unbounded integer, where the code's is a float past 2^53.
- Orphans: only the right-half direction; a left half can lose its right half to insertion at the last column, as the code allows.
- Cksum.Compute: bytes are a sequence, and a length of 2^32 or more is folded as the code's 32-bit shift does.
- Upload: the tty loses what overflows it and nothing else; timeouts are the page giving up at any time; the final unpack command is not modelled.
- Framing: the stream is the console's text with escape sequences already taken out by `clean`; whitespace is ASCII.
- Checkpoint: waits are an oracle's answer or none; times are ticks; overlay, status and focus calls are left out. A reply is never delivered late into another command's wait. Commands go unbracketed, as after the mux has turned brackets off. Typed at the shell by mistake, or short of their first byte, they run nothing.
- CheckpointSafety.SessionIsSafe: the user's own keys between operations are a held Ctrl-A; a user who switches to the monitor by hand is not modelled.
- Download: `atob` is `Base64.Decode`, which also takes padding inside the text; no encoder writes any.
- Typists: timers fire at any time; a line that takes effect does so when it is typed; a size sent at an idle prompt is taken; `measure` and `fit` are left out. The branches of a checkpoint and a rollback that `Checkpoint` follows exactly are free choices in `Errands`, which is about who types and who lets go; the loop over a load's blocks is unrolled, for every number of them; `Call` stands for any overlay, encoding or status call, and may throw. A rollback with no checkpoint to go to begins nothing.
- Identity: paths the page cannot tell apart from others (not UTF-8, or with a carriage return) are left out, and so is SHA-256: the statements are about the text hashed. Sorting rows by path is sorting them whole, since no two share one.
- Fingerprint.PrintInjective: the numbers are taken as digits already written.
- Session: sockets and devices, hard links inside an archive, files changing while they are packed, and symlinked parents (realpath is the identity). A directory's own mtime is not restored exactly by the code and is no part of what `Alike` compares. Walks are lists of what they find, in any order. tar stops where a directory would have to become a file or the other way round; what it leaves then is not modelled. session.json itself is extracted beside the members on a match, outside both trees.
- Unpacking: gzip, tar and JSON are foreign; `session.json` is what it parses to, and tar takes a member named exactly or under a directory named exactly.
- The browser-side copy, `bootscreen.js`, the worker and the shell scripts: thin, or easy next to the rest.
