# The devpipe daemon, verified

devpipe keeps terminal sessions alive on a machine, lets clients attach to them
from anywhere, and introduces the two through a relay. This project models the
parts of the daemon whose contracts are hard, in Dafny 4.11, and proves them.

    dafny verify dfyconfig.toml

## What is modelled

**Screen replay** (`Utf8`, `Text`, `Vt`, `Replay`, `Sequences`, `Pens`, `Screens`,
`Frugality`, `Roundtrip`, `Likeness`, `Observed`, `Resume`). `screen_as_ansi` is written
out as the loops it is, down to the byte (UTF-8 characters, decimal parameters). Against
it stands a byte-at-a-time terminal: control sequences as ECMA-48 section 5.4 has them,
CUP (section 8.3.21), ED (section 8.3.39), SGR (section 8.3.117), the private modes 25,
1049 and 2004, and narrow, wide and combining characters with any table of widths. The
terminal undoes the printer, from whatever state it was in and for whatever bytes the
screen came from; the optimised printer and one that repaints every cell with its own
SGR leave the same screen; and what a client, fresh or not, shows as the child goes on
printing is followed too: which terminals no further bytes can tell apart, and so
exactly what a replay fails to carry over.

**A client attached to a session** (`Attach`, `Newcomers`, `Hearing`, `Gaps`, `Viewing`,
`Marker`, `Urls`). The pty thread feeds a mirror and then a ring of 2048 chunks; a
client subscribes, is sent a replay, is forwarded chunks, is resynced when it has fallen
behind, and is told of the end. These are steps that interleave in any order. The marker
scanner that listens to what is forwarded is a class proved against a specification of
the whole stream (OSC strings, ECMA-48 sections 8.3.89 and 8.3.143), and the shell shim
that prints the markers is its round-trip partner; which URLs may be asked for is said
without the function that decides it. Put through a terminal, what was sent to the
client is compared with the session's own screen.

**Input and lifetime** (`Pump`, `Lifetime`). The queue toward the pty, emptied by
partial writes, with the waker that stops its thread sleeping on input; and the loop
that decides how long a keeper outlives its child.

**Introductions** (`Keys`, `Relay`, `Introductions`). A relay's keys, kept as hashes,
granted, revoked and rotated; and the protocol over the two shared maps: enrolments,
tickets offered by anybody, timeouts, one-use hand-over, with keys rotated in between;
that introductions come about, and how each of the other ways ends.

**Wire, panes and secrets** (`Wire`, `Panes`, `Secrets`, `Entries`). The frame codec and
its length prefix; several sessions' pumps on one outgoing queue; and the `KEY=value`
file that should behave as a finite map.

A method stands for a loop or an update in the source and is proved against a
specification function. What several processes do to shared state is a step machine:
`Can` says when a step may be taken, `Do` what it does, `Runs` and `After` make runs of
them, and the theorems are about every run: what none of them does, and, from every
state that can be reached, what can still come about.

## What the code does not do

Each of these is proved, with the exact condition and an input that fails.

- `replay.rs` says a replay lands on the same screen. A combining mark on a
  trailing blank is trimmed away (`Screens.LostMark`), and for any input at all
  the screen is right exactly when there is none (`Roundtrip.AnyInputRoundTrips`).
  Into a terminal that is not fresh, the clearing is done in the old background,
  and no mode is ever switched off (`Screens.ReplayLands`,
  `Screens.ClearedToColour`, `Screens.StuckInAlternate`).
- A client does not always go on as its session does. The pen, a pending wrap, the
  main screen behind an alternate one and an unfinished sequence are not carried over,
  and further output shows it (`Resume.PenIsLost`, `Resume.WrapIsLost`,
  `Resume.MainIsLost`); for any client, what it shows is right whatever is printed next
  exactly when there was nothing of the kind (`Resume.FollowsIffResumable`).
- `keeper.rs` subscribes before it takes the mirror, as a repaint is invisible. It is
  not: chunks a replay has painted are then printed again, and a client with nothing
  left to receive can show a letter twice (`Viewing.RepaintShows`). One that was resynced
  is always due a ringful again (`Viewing.SeesTheSession`, `Viewing.ResyncShows`). Where
  the replay carried all there was, the client is right exactly when printing those
  chunks twice comes to the same as once, and so whenever there are none
  (`Viewing.FollowsIffRepeatsShowNot`).
- A request is lost exactly when its payload is over 4096 bytes
  (`Marker.GivingUpLoses`), more than 2030 of which are then white space around
  the URL (`Marker.LostIsPadded`, `Marker.PaddedIsLost`).
- The scanner is not reset when a client is resynced. What it had begun to read
  can be finished by bytes from the other side of the gap
  (`Hearing.HeardByStretch`, `Gaps.LaggingMayMishear`), so that a client is told
  to open a URL the child never asked for (`Hearing.PhantomRequest`).
- What is printed in a gap is painted by the resync, and a request in it is never heard
  (`Gaps.GapLosesRequest`). A client has been told everything exactly when no request
  lies in a gap or across its edge (`Gaps.ToldAllIffNothingMissed`).
- The final drain stops when it finds itself lagging, so a client can be told the
  child has exited knowing nothing of its last words (`Attach.ExitIsComplete`,
  `Attach.LossyExit`). What the drain forwards is not scanned, and a client has
  been told everything exactly when scanning it would have found nothing
  (`Hearing.HeardToTheEnd`, `Hearing.KeptUpHearsTheEnd`, `Hearing.LastWordsUnheard`).
- The relay says an entry goes when its connection does. One whose welcome cannot
  be sent never goes, and every other one can (`Relay.EntryGoesIffNotLeaked`,
  `Relay.LeakIsForever`, `Relay.LeakHappens`).
- `proto.rs` says a Close frees its channel number. The host keeps the number
  until the client itself lets the pane go (`Panes.NumberIsFreeWhenLetGo`,
  `Panes.ClosedIsNotFree`). Opened again after that, it can still be sent frames of
  the session let go, until that session's pump stops (`Panes.ReceivesIffLive`,
  `Panes.StrayFrame`).
- A frame longer than 8 MiB is written and cannot be read back, and its length
  is cast to 32 bits (`Wire.ReadsBackIffFits`, `Wire.LongIsRefused`,
  `Wire.LongHappens`).
- Setting any secret rewrites every other: a value quoted to keep its spaces
  loses them (`Secrets.QuotedIsWornDown`), and from a file with one byte that is
  not UTF-8 all of them are lost (`Secrets.SetKeepsAllIffText`,
  `Secrets.StrayByteLosesAll`).

## Model

| member | source | states |
|---|---|---|
| Utf8.DecodeIffEncoded | devpipe/src/marker.rs:124 | bytes are accepted as text exactly when they are the encoding of that text, so overlong forms, surrogates and cut characters are refused |
| Utf8.EncodedForms | devpipe/src/marker.rs:124 | what text is made of: the one to four bytes of section 3 of RFC 3629, by what they are worth |
| Text.WhiteSpaceIs | devpipe/src/marker.rs:142 | white space is 25 characters, Unicode's |
| Text.TrimIs | devpipe/src/marker.rs:142 | trimming takes away all the white space at both ends and nothing else |
| Replay.ScreenAsAnsi | devpipe/src/replay.rs:22-83 | for every terminal, the printer's output is the specified replay, byte for byte |
| Replay.PushLines | devpipe/src/replay.rs:33-70 | the row loop writes the lines of all rows in order, blank rows contributing nothing |
| Replay.RowEnd | devpipe/src/replay.rs:44-48 | finds where a row's trailing blanks begin: everything after is blank, the cell before is not |
| Replay.PaintRow | devpipe/src/replay.rs:54-68 | the cell loop skips spacers and writes a pen only where it differs from the last one written in that row |
| Replay.Sgr | devpipe/src/replay.rs:85-107 | the attribute table and both colours come out as one control sequence with exactly those parameters |
| Replay.PushColor | devpipe/src/replay.rs:109-119 | a colour adds no parameter, three, or five, in the 38/48 forms |
| Frugality.BlankIffUnseen | devpipe/src/replay.rs:42-48 | what the printer leaves out at the end of a row is exactly the spaces that, a combining mark aside, look like cells of a cleared screen, whatever their text colour |
| Frugality.EndIs | devpipe/src/replay.rs:42-48 | and all of those, back to the last cell that is not one |
| Frugality.BlankRowIsNothing | devpipe/src/replay.rs:49-51 | a row is not mentioned at all iff it is nothing but those |
| Frugality.OnePenOnce | devpipe/src/replay.rs:53-63 | cells of one pen are written with that pen once, before the first of them, and not at all if it was the last one written |
| Frugality.UniformRow | devpipe/src/replay.rs:53-69 | a row in one pen is its position, that pen, its characters, and a plain pen |
| Sequences.RunSequence | devpipe/src/replay.rs:53 | any control sequence, whatever its decimal parameters, is dispatched by the terminal once and with exactly those parameters |
| Sequences.RunChar | devpipe/src/replay.rs:64-67 | the UTF-8 bytes of any printable character print that character once |
| Pens.ApplyAttrs | devpipe/src/replay.rs:88-102 | the attribute codes add exactly the cell's attributes to any pen and leave the parameters after them to be read as they are |
| Pens.SgrRoundTrip | devpipe/src/replay.rs:85-119 | reading back an SGR from any prior pen gives exactly the cell's attributes and colours; colour arguments are never taken for attributes |
| Screens.DrawCells | devpipe/src/replay.rs:55-68 | from any column that starts a character, painting the cells up to any other extends what the row shows to there, with the cursor after it and marks on their own characters |
| Screens.DrawLine | devpipe/src/replay.rs:42-69 | one line's bytes repaint exactly that row of a cleared screen and leave a plain pen |
| Vt.EscapeRecovers | devpipe/src/replay.rs:25-30 | whatever sequence or character a terminal was in the middle of, bytes that start with an ESC do to it what they do to one between sequences |
| Screens.RunOpening | devpipe/src/replay.rs:25-30 | from any state of a terminal, the opening enters the child's buffer, homes, and clears in the background of the pen it found |
| Screens.RunClosing | devpipe/src/replay.rs:72-81 | the closing leaves the cursor, its visibility and the paste mode the session has, and never switches paste off |
| Screens.PaintLands | devpipe/src/replay.rs:22-83 | the whole state either printer leaves behind, from any terminal of the size, whatever it was in the middle of |
| Screens.ReplayLands | devpipe/src/replay.rs:22-83 | from any such terminal: cursor and visibility are restored; the screen is the same iff nothing visible was trimmed; buffer and paste mode are right iff the client was not in a mode the session is not |
| Screens.FreshReplay | devpipe/src/replay.rs:125-134 | replaying into a fresh terminal lands on the same cursor, modes and buffer, and on the same screen iff no trailing blank carries a combining mark |
| Screens.OptimisedAgreesWithNaive | devpipe/src/replay.rs:42-70 | from any such terminal, the optimised printer and one that repaints every cell with its own SGR leave terminals that agree in everything, the grids looking the same iff nothing visible was trimmed; the naive one is always right |
| Screens.LostMark | devpipe/src/replay.rs:44-48 | the failing family is not empty: a space with an acute accent replays as nothing |
| Screens.StuckInAlternate | devpipe/src/replay.rs:25-30 | a client that had entered the alternate screen is left there by the replay of a session that is not in it |
| Screens.ClearedToColour | devpipe/src/replay.rs:30 | a client whose pen had any background but the default shows a blank session differently |
| Roundtrip.RunKeeps | devpipe/src/replay.rs:127-134 | whatever bytes a terminal is fed, both its screens stay ones a replay can print: no half of a wide character, no stray mark |
| Roundtrip.AnyInputRoundTrips | devpipe/src/replay.rs:125-134 | for every input and size, the replay of the terminal it was fed to lands, in a fresh one, on the same cursor, modes and buffer, and on the same screen iff no trailing blank was left with a combining mark |
| Likeness.RunAlike | devpipe/src/keeper.rs:319-325 | terminals alike in everything later output can bring out stay so under any bytes |
| Observed.Switches | devpipe/src/replay.rs:25-29 | what the private modes do: 25 and 2004 switch the cursor and the paste and nothing else, and leaving the buffer that 1049 entered gives back the cursor and the screen there was |
| Observed.IndistinctIffAlike | devpipe/src/keeper.rs:319-325 | two terminals of any one size, equally far into a sequence or both in none, show the same screen, cursor and modes whatever bytes both are fed iff they are so alike: every other difference of state is shown by some bytes |
| Resume.AlikeIffCarried | devpipe/src/keeper.rs:275-286 | any client just replayed, fresh or not, is so alike to the daemon's terminal iff the pen is plain, no wrap is pending, only plain blanks were trimmed and none cleared to a colour, the client was in no mode the session is not in, and what is behind an alternate screen is what the client has there |
| Resume.FollowsTheChild | devpipe/src/keeper.rs:319-325 | and then, unless something unfinished matters, no bytes the child prints next tell the two apart |
| Resume.FollowsIffResumable | devpipe/src/keeper.rs:319-353 | for any client and any terminal: no bytes tell the two apart iff the replay carried all there is and the terminal was between sequences, or in a character that can change nothing |
| Resume.OverlongSettles | devpipe/src/keeper.rs:319-325 | such a character is one begun by an overlong lead byte |
| Resume.PenIsLost | devpipe/src/replay.rs:69 | after the replay, into any client, of any terminal whose pen is not plain, a letter printed at home looks different |
| Resume.WrapIsLost | devpipe/src/replay.rs:72-73 | after the replay, into any client, of any terminal of more than one column that is between sequences with a wrap pending, a letter other than the one at the edge looks different |
| Resume.MainIsLost | devpipe/src/replay.rs:25-29 | a client that leaves the alternate screen shows the right main screen iff it had that there itself, and its cursor iff its own was there |
| Viewing.SeesTheSession | devpipe/src/keeper.rs:275-368 | in every interleaving, whatever the client's terminal was: it shows what the last replay made of it and then each chunk from the cursor as it stood at that replay, which had painted no less, and at least a ringful more if it was a resync |
| Viewing.FollowsIffAlike | devpipe/src/keeper.rs:275-368 | in every run, whatever the last replay failed to carry: when client and mirror are equally far into a sequence or both in none, no bytes tell them apart iff their states are alike; anywhere else they must be alike but for the sequence |
| Viewing.FollowsIffRepeatsShowNot | devpipe/src/keeper.rs:276-278 | in every run whose last replay carried all there is, no bytes tell the client from the mirror iff none tell apart printing twice what that replay had painted already and printing it once, which is when the two leave like states, if at the same point of a sequence; and always when the replay was taken at the cursor |
| Viewing.ResumesIffCarried | devpipe/src/keeper.rs:275-286 | in every run, a client just replayed at its cursor can go on, whatever is printed next, iff the replay carried all there is |
| Viewing.RepaintShows | devpipe/src/keeper.rs:276-278 | a run in which a chunk is read between subscription and replay, and any client, attached and with nothing yet to receive, shows another screen than the session |
| Viewing.ResyncShows | devpipe/src/keeper.rs:343-353 | a run in which any client falls behind, is resynced and has received everything, and shows another screen than the session |
| Marker.Scanner.Step | devpipe/src/marker.rs:66-119 | one byte: the new state and what was found, as the transition function says |
| Marker.Scanner.Feed | devpipe/src/marker.rs:58-64 | one chunk: the state and markers of scanning its bytes from the state it found |
| Marker.ScanIsMarkers | devpipe/src/marker.rs:58-132 | a scanner reports, in order, exactly the markers of a whole-stream specification: OSC strings ended by BEL or ESC, each complete payload of at most 4096 bytes parsed |
| Marker.ChunksDoNotMatter | devpipe/src/marker.rs:46-64 | however the stream is cut into chunks, the markers reported are those of the whole stream |
| Marker.ScanIsFrugal | devpipe/src/marker.rs:104-116 | after every byte a scanner holds at most 4096 bytes, and nothing of a string that cannot be ours |
| Marker.FreeIsUnbounded | devpipe/src/marker.rs:85-118 | a scanner that never gives up reports every payload of a stream that is a marker, however long |
| Marker.GivingUpLoses | devpipe/src/marker.rs:107-116 | on any stream the scanner agrees with one that never gives up iff no request in it has a payload over the ceiling |
| Marker.RequestIffPayloaded | devpipe/src/marker.rs:122-132 | a payload is a request iff it is what the shim would print for some argument that safe_url accepts |
| Marker.LostIsPadded | devpipe/src/marker.rs:141-145 | a request over the ceiling has more than 2030 bytes of white space around its URL |
| Marker.ScanCarries | devpipe/src/marker.rs:66-119 | from any state it can be in, a scanner reports of a stretch of bytes the stretch's own markers, and before them at most one begun earlier |
| Marker.MisheardIffHopeful | devpipe/src/marker.rs:66-119 | some stretch can be so misheard iff the state is an ESC just seen or the beginning of a request |
| Marker.ParsePayloaded | devpipe/src/marker.rs:122-132 | the payload the shim prints parses to an Open of the safe form of its argument, or to nothing when it has none |
| Marker.UnpaddedFits | devpipe/src/marker.rs:141-158 | a URL that safe_url returns unchanged makes a payload of at most 13 + 5 + 2048 bytes, under the ceiling |
| Marker.TerminatorRecovers | devpipe/src/marker.rs:89-103 | from every state, ESC \ reports at most the pending payload and goes on as a fresh scanner would |
| Marker.ShimIsHeard | deploy/docker/devpipe-open:13-14 | from every state and for every argument, of any bytes, the shim's output finishes what was pending, asks for the safe form of its argument up to the first ESC or BEL in it unless that is over the ceiling, then for what the rest spells by itself, and leaves plain text |
| Marker.ShimRoundTrip | deploy/docker/devpipe-open:13-14 | a URL safe_url returns unchanged arrives unchanged, once, after at most one pending marker |
| Marker.PaddedIsLost | devpipe/src/marker.rs:111-116 | a safe URL behind any number of spaces is one safe_url accepts, and is reported iff the two together are at most 4078 bytes |
| Marker.PlainUrl | devpipe/src/marker.rs:146-151 | http://a is a URL safe_url returns unchanged, so what is said of such URLs is said of something |
| Urls.SafeUrlIff | devpipe/src/marker.rs:141-158 | what may be opened: of the text asked for, less the white space around it, a URL that is http:// or https:// and something after it, without control characters, of at most 2048 bytes; and nothing else |
| Urls.OtherSchemes | devpipe/src/marker.rs:134-148 | so never one that begins with javascript:, file: or data: |
| Urls.SomeAreSafe | devpipe/src/marker.rs:146-148 | a sign-in page over https and a local one over http may be opened, white space around the one dropped |
| Urls.SomeAreRefused | devpipe/src/marker.rs:146-151 | three that are no pages, a scheme with nothing after it, and one in capitals, may not |
| Urls.ShimPrints | deploy/docker/devpipe-open:13-14 | the shim's output, byte by byte |
| Urls.BellEnds | devpipe/src/marker.rs:89-103 | a request that a bell (07) ends is heard as one that ESC ends is |
| Attach.RunKeeps | devpipe/src/keeper.rs:275-372 | the invariant of every interleaving: ring, mirror and cursor agree, and an attached client is covered up to its cursor and its last replay |
| Attach.NeverAGap | devpipe/src/keeper.rs:275-358 | in every interleaving, lag and resync included, no chunk is forwarded before everything ahead of it was forwarded or painted, and none twice or out of order |
| Attach.ExitIsComplete | devpipe/src/keeper.rs:360-372 | when a client has been told of the exit the child is dead, and the client is covered for the child's entire output iff the drain did not find it lagging or its last replay was already the final screen |
| Attach.LossyExit | devpipe/src/keeper.rs:360-368 | for every n over 2048 there is a run in which the child prints n chunks, the client is told of the exit, and knows none of them |
| Newcomers.ForwardedSinceSubscribing | devpipe/src/keeper.rs:276-368 | in every run: a client is forwarded, by loop and drain, nothing sent before it subscribed, and if never resynced exactly the chunks sent from then on, one after the other, up to its cursor |
| Newcomers.ReplayIsOfAll | devpipe/src/session.rs:117-124 | every replay, resyncs too, is of every chunk read by then, sent or not |
| Newcomers.NeverToldAhead | devpipe/src/keeper.rs:324-340 | wherever a client's log is cut, what it has been told to open is what the bytes it has been forwarded begin by asking for |
| Newcomers.WholeExit | devpipe/src/keeper.rs:360-372 | up to 2048 chunks that a dying child leaves behind all reach the client, in order, before it is told |
| Newcomers.ExitCanBeTold | devpipe/src/keeper.rs:319-372 | in every run, wherever a client is when the child is dead, it can come to be told, a Close being the last it is sent |
| Newcomers.LateIsTold | devpipe/src/keeper.rs:275-372 | a client that attaches to a dead child is painted all of the screen and told |
| Newcomers.HangingUpEnds | devpipe/src/keeper.rs:320-330 | a client may hang up at any time, and is sent nothing more |
| Hearing.NoticesAreMarkers | devpipe/src/keeper.rs:297-341 | in every run, the URLs a client was told to open are the markers of the bytes forwarded to it from the loop, with any gaps closed up |
| Hearing.KeptUpHearsAll | devpipe/src/keeper.rs:319-345 | a client that was replayed to once has been told exactly the markers of the child's output from its subscription to the drain |
| Gaps.ToldAllIffNothingMissed | devpipe/src/keeper.rs:319-358 | in every run, resyncs included: what a client was sent asks for all that the child did between its subscription and the drain iff no request lies in a gap or across the edge of one; and if nothing was carried over a gap, that is when it was told everything |
| Gaps.GapLosesRequest | devpipe/src/keeper.rs:343-353 | for every safe URL there is a run in which the child asks to open it, and a client that is attached and has been resynced is told nothing |
| Gaps.LaggingMayMishear | devpipe/src/keeper.rs:343-353 | in every run, a client found lagging can yet mishear what it is forwarded next iff its scanner has just seen an ESC or holds the beginning of a request |
| Hearing.HeardByStretch | devpipe/src/keeper.rs:297-358 | in every run, resyncs included: what a client was told to open is, for each unbroken stretch of chunks between replays, that stretch's own markers after at most one begun before the gap; and the stretches' own markers alone iff nothing unfinished at a resync was finished after it |
| Hearing.StretchIsAsked | devpipe/src/keeper.rs:319-345 | the markers of a stretch are markers of all the child printed, together and in order |
| Hearing.PhantomRequest | devpipe/src/keeper.rs:300-353 | for every safe URL there is a run in which a resynced client is told to open it although the child, in all it printed, asked for nothing |
| Hearing.HeardToTheEnd | devpipe/src/keeper.rs:360-371 | in every run that told a client of the exit and carried nothing across a gap, it was told all that its chunks ask for, drained ones included, iff the drained bytes would have told the loop's scanner nothing; as when none were drained |
| Hearing.KeptUpHearsTheEnd | devpipe/src/keeper.rs:360-371 | for a client that never fell behind: it was told exactly the markers of the child's output from its subscription to the last chunk sent, iff the same |
| Hearing.LastWordsUnheard | devpipe/src/keeper.rs:360-368 | a request printed just before the child dies can reach the client as bytes and never as a request |
| Pump.Input.Write | devpipe/src/session.rs:182-190 | appends to the queue, in order, and accepts nothing |
| Pump.Input.Drain | devpipe/src/session.rs:135-152 | whatever the pty takes each time, what it accepted and what is left are the queue cut at one point |
| Pump.BrokenIffFailed | devpipe/src/session.rs:135-152 | a drain is broken iff the turn it leaves off at failed; any other leaves off with nothing queued, a full pty, or one that took nothing, after something was taken at every turn before |
| Pump.FullIsNotBroken | devpipe/src/session.rs:148 | a pty that never fails, however often full, breaks no drain |
| Pump.DrainEnds | devpipe/src/session.rs:135-155 | a broken drain ends the thread, which accepts nothing ever after; any other brings it back to the top of its loop |
| Pump.DrainIsARun | devpipe/src/session.rs:135-152 | every drain, however divided, is a run of the interleaved machine with the same effect |
| Pump.InputIsConserved | devpipe/src/session.rs:106-152 | in every interleaving of writers and thread, what the pty accepted followed by what is queued is everything written, in order |
| Pump.NeverSleepsOnInput | devpipe/src/session.rs:102-109 | in every run, a thread asleep with input queued is asking for writability, or has been rung, or is about to be; one told to stop has been rung or is about to be |
| Pump.AsksOnlyToWrite | devpipe/src/session.rs:106-109 | in every run the thread asks to be told of room iff it goes to sleep with something to write, and never in vain |
| Pump.WritesOnlyWhenWritable | devpipe/src/session.rs:135 | in every run nothing is written unless the last poll said that the pty had room |
| Pump.WakesOnce | devpipe/src/session.rs:102-109 | woken with nothing to do, it goes back to sleep and is not woken again by the same ring |
| Pump.StopsWhenWoken | devpipe/src/session.rs:102-105 | told to stop, a thread that is woken stops, writing nothing |
| Lifetime.LeavesInGoodTime | devpipe/src/keeper.rs:175-214 | in every timed run, a keeper leaves its loop only with the child dead, nobody being served and ten seconds gone since it noticed, which was not before the death |
| Lifetime.DeathIsNoticed | devpipe/src/keeper.rs:176-204 | a death before, between or after the watch subscription and the first look is noticed: a looping keeper with a dead child has a deadline or can set it now |
| Lifetime.ItDoesLeave | devpipe/src/keeper.rs:182-214 | from every reachable state in the loop with a dead child and nobody to serve, the loop can be told of the death, wait and leave, in at most ten more seconds |
| Lifetime.OutlivesItsChild | devpipe/src/keeper.rs:182-214 | by the steps of the run alone: at least ten seconds pass between the death and the keeper's leaving, and everybody it began to serve has been served |
| Lifetime.StaysWithItsChild | devpipe/src/keeper.rs:180-214 | it never leaves while the child lives |
| Lifetime.ServesUntilItLeaves | devpipe/src/keeper.rs:190-213 | it can be attached to for as long as it is in its loop, and stays until whoever attached has been served |
| Lifetime.LeavesSoonAfterTheLast | devpipe/src/keeper.rs:206-212 | with the ten seconds over, it stays while anybody is being served, and then leaves within a second |
| Lifetime.LeavesWhenAllAreServed | devpipe/src/keeper.rs:182-214 | from every state of the loop with a dead child, with everybody served it leaves in at most ten seconds |
| Keys.AnswersIff | devpipe/src/keys.rs:109-119 | a hash speaks for somebody iff a key with that hash and purpose is held, and then for the account of one |
| Keys.Keyring.AccountFor | devpipe/src/keys.rs:109-119 | the loop that never stops early answers with the last key that matches hash and purpose |
| Keys.Keyring.Grant | devpipe/src/keys.rs:123-136 | no account, no key; otherwise the key is held in memory even when the file could not be saved |
| Keys.Keyring.Revoke | devpipe/src/keys.rs:139-150 | short prefixes are refused and change nothing; otherwise exactly the keys with the prefix go, counted, whether or not the file could be saved |
| Keys.Keyring.Mint | devpipe/src/relay.rs:287-303 | the whole rotation: every key the pair had revoked, one granted, failures of the file ignored for the one and reported for the other |
| Keys.RevokeOne | devpipe/src/keys.rs:139-150 | among hashes of one length, revoking by a whole hash silences that hash and changes no other answer |
| Keys.RotationAnswers | devpipe/src/relay.rs:287-303 | after a rotation the new hash speaks for the account, a hash the pair had speaks for nobody, any other is answered as before |
| Keys.MintReplaces | devpipe/src/relay.rs:287-303 | the same of tokens: the new one answers, every older token for the account and purpose answers nobody, every other is unchanged |
| Relay.StepKeeps | devpipe/src/relay.rs:227-442 | every step of every connection keeps the invariant of both maps, the tickets on their way and the sockets handed over |
| Relay.MapsAreExact | devpipe/src/relay.rs:337-437 | in every reachable state the keys of pending are exactly the tickets minted and neither claimed nor cleaned away, and every hold that has not removed its entry owns the one entry for its account and name |
| Relay.RemovalIsOwn | devpipe/src/relay.rs:386 | a hold that leaves removes the entry it inserted and no other |
| Relay.SplicesAreRightful | devpipe/src/relay.rs:236-442 | in every run, with tickets offered by anybody: a splice joins a client that showed a reach key of an account and asked for a name with the machine that showed an enrolment key of that account under that name iff the socket came from a machine enrolled there, as it did if from one that was dialled the ticket; no ticket and no client is spliced twice |
| Introductions.IntroductionHappens | devpipe/src/relay.rs:236-442 | for any keys that admit a machine and a client to one account, the whole run that introduces them, its log, and what is left in both maps |
| Introductions.AskedIsExpected | devpipe/src/relay.rs:410-427 | from every state that can be reached, a client that has asked for a machine that is there gets its ticket to it, after those before it |
| Introductions.IntroductionCompletes | devpipe/src/relay.rs:244-253 | and when that machine dials back, or anybody with the ticket, the two are spliced: recorded once, and the ticket gone |
| Introductions.TooLateIsNever | devpipe/src/relay.rs:247-251 | a socket handed to a client no longer waiting is lost, and however the run goes on that client is never joined |
| Introductions.SpentIsStale | devpipe/src/relay.rs:246-257 | a ticket once out of the map stays out, and offering it changes nothing |
| Introductions.GoneIsRefused | devpipe/src/relay.rs:416-426 | a client whose machine has gone is refused, its ticket taken away, and nothing recorded |
| Introductions.LateIsRefused | devpipe/src/relay.rs:428-437 | so is one that is not dialled back in time |
| Introductions.HungUpIsRefused | devpipe/src/relay.rs:439 | and one that has hung up when it would be joined, with nothing recorded |
| Introductions.AdmittedIff | devpipe/src/relay.rs:237-242 | a token is let in to enrol, or to reach, iff a key for that purpose has its hash |
| Introductions.GreetedIff | devpipe/src/relay.rs:340-355 | enrolling puts exactly one entry on the map, or, under a name that is taken, changes nothing |
| Introductions.AskedIff | devpipe/src/relay.rs:398-410 | a client is introduced to the machine of its own account under that name, or, when there is none, nothing changes, whoever else has one |
| Introductions.NameIsFreed | devpipe/src/relay.rs:364-388 | a machine that hangs up, or cannot be told of a client, frees its name, and the next can enrol under it |
| Introductions.QueueHolds32 | devpipe/src/relay.rs:58 | a machine that is there can be asked for another client iff fewer than 32 are waiting to be told to it |
| Introductions.ToldInTurn | devpipe/src/relay.rs:364-374 | and it is told of them in turn |
| Introductions.RotationLocksOut | devpipe/src/relay.rs:275-316 | from a rotation on, the new token is admitted for its purpose, and none that it replaced for any |
| Relay.EntryGoesIffNotLeaked | devpipe/src/relay.rs:329-386 | in every state that can be reached, an entry of the map can still go iff its welcome did not fail |
| Relay.LeakIsForever | devpipe/src/relay.rs:357-362 | after a welcome that failed, in every continuation the name stays taken, enrolling under it changes nothing, no client can be dialled through it, and none is handed a socket by that machine |
| Relay.LeakHappens | devpipe/src/relay.rs:357-362 | such a state is reached in two steps from any keys that admit an enrolment |
| Wire.Encode | devpipe/src/proto.rs:98-104 | channel, opcode, payload, appended step by step, is the encoding |
| Wire.DecodeIffEncoded | devpipe/src/proto.rs:98-116 | bytes decode to a frame exactly when they are that frame's encoding |
| Wire.HeaderIs | devpipe/src/proto.rs:98-104 | four bytes of channel, most significant first, one of 0, 1 or 2, and the payload |
| Wire.Pipe.WriteFrame | devpipe/src/keeper.rs:536-542 | appends the length, cast to 32 bits, and the encoding |
| Wire.Pipe.ReadFrame | devpipe/src/keeper.rs:544-558 | end of stream, each error, or one frame with exactly its bytes consumed |
| Wire.ReadsBackIffFits | devpipe/src/keeper.rs:534-558 | whatever follows it, a written frame can be read back iff its encoding is at most 8 MiB |
| Wire.PrefixIs | devpipe/src/keeper.rs:534-558 | four bytes of length, modulo 2^32, go before that; a frame of up to 8 MiB comes back, with what follows it left, and no longer one |
| Wire.LongIsRefused | devpipe/src/keeper.rs:551-554 | a frame over 8 MiB and under 4 GiB is refused with its own length |
| Wire.LongHappens | devpipe/src/keeper.rs:536-554 | such a frame, 8 MiB of payload, is written and not read |
| Wire.ReadPrefix | devpipe/src/keeper.rs:534-558 | reading a stream of written frames cut at any byte gives exactly the frames wholly before the cut, then end of stream, or an error when the cut is inside a payload |
| Panes.PumpIsItsSession | devpipe/src/serve.rs:527-545 | in every interleaving and however often numbers are used again, each pump has sent a prefix of its session's frames up to the first Close, renumbered, with one Close supplied if there was none, and all of it when it ended; and a channel carries only what was sent by pumps opened on it |
| Panes.ChannelIsItsSession | devpipe/src/serve.rs:527-545 | so a channel opened once has seen exactly that of its one session |
| Panes.ReceivesIffLive | devpipe/src/serve.rs:273-276 | in any state, a pane's pump can still send on its number iff it has neither ended nor stopped, let go or not |
| Panes.StrayFrame | devpipe/src/serve.rs:273-276 | a number let go and opened again is sent a frame of the session let go |
| Panes.OpenedFirst | devpipe/src/serve.rs:248-260 | each pump's frames arrive on a channel only after the client has been told that it is open for that very pump, however often the number was used before |
| Panes.LettingGoStops | devpipe/src/serve.rs:273-285 | a client that closes a pane on the control channel is told so, whether it had it or not; the pane's pump can be stopped from then on, and once stopped sends nothing more |
| Panes.StoppedOnlyIfLetGo | devpipe/src/serve.rs:174-178 | and only its client's letting go stops a pump |
| Panes.ControlIsNotAPane | devpipe/src/serve.rs:206-214 | channel zero cannot be opened, and in no run does a session speak on it |
| Panes.NumberIsFreeWhenLetGo | devpipe/src/serve.rs:205-214 | a channel number can be opened again iff the client has let go of every pane it had there |
| Panes.ClosedIsNotFree | devpipe/src/proto.rs:41-42 | a pane whose pump has sent its Close and ended, on a number that cannot be opened |
| Entries.NameIff | devpipe/src/secrets.rs:113-124 | a name is accepted iff it is not empty, starts with none of the ten digits, and is of the 63 characters; each other is refused for the first of these it fails |
| Entries.UnderscoresAreFine | devpipe/src/secrets.rs:113-124 | a name with underscores and a digit, set in any file, reads back |
| Entries.EntryIff | devpipe/src/secrets.rs:83-106 | a line is an entry iff, but for white space around it and around its name, it is an allowed name, the first =, and anything at all, which cleaned is the value |
| Entries.CleanIs | devpipe/src/secrets.rs:96-105 | what is between two quotes of one kind is kept as it is; a value not so wrapped only loses the white space around it |
| Entries.LinesIs | devpipe/src/secrets.rs:85 | a text is its lines, each less one carriage return, and what follows the last line feed |
| Secrets.Secrets.ParseLine | devpipe/src/secrets.rs:85-106 | what a line of the file comes to: nothing for blanks, comments, lines without = and bad names |
| Secrets.Secrets.Load | devpipe/src/secrets.rs:35-40 | the pairs of the file, or none when it is missing or not text throughout |
| Secrets.Secrets.Write | devpipe/src/secrets.rs:68-77 | the file becomes the printed pairs whole, or is left as it was |
| Secrets.Secrets.Set | devpipe/src/secrets.rs:46-55 | the three refusals in order, none changing the file; otherwise the key's old lines go and its new one is last |
| Secrets.Secrets.Remove | devpipe/src/secrets.rs:57-66 | false and no write when the key is not there, otherwise every line of it goes |
| Secrets.EntryOfLine | devpipe/src/secrets.rs:85-106 | a printed line reads back as its key and its value less outer white space and one pair of quotes |
| Secrets.ParseWritten | devpipe/src/secrets.rs:68-108 | parsing what was printed gives the same keys in order, each value so cleaned |
| Secrets.Survives | devpipe/src/secrets.rs:97-104 | a value is its own cleaning iff it has no white space at either end and is not wrapped in matching quotes |
| Secrets.ReadsBackIffKept | devpipe/src/secrets.rs:68-108 | parsing what was printed gives the same pairs iff every value is such a value |
| Secrets.SetReadsBack | devpipe/src/secrets.rs:46-55 | for any file of any bytes, after a set the key reads as its value cleaned and every other key that was read as its old value cleaned again |
| Secrets.RemoveReadsBack | devpipe/src/secrets.rs:57-66 | for any file, after a remove exactly that key is gone |
| Secrets.ChangesAreUpdates | devpipe/src/secrets.rs:46-66 | from any file whose values survive, any sequence of sets and removes with values that survive is a sequence of updates of a finite map |
| Secrets.QuotedIsWornDown | devpipe/src/secrets.rs:97-104 | the failing family: a quoted value loses its quotes, and then its spaces, when any other key is set |
| Secrets.SalvagedText | devpipe/src/secrets.rs:83-108 | of a file that is text, reading line by line and leaving out lines that are not finds what parse finds |
| Secrets.SetKeepsAllIffText | devpipe/src/secrets.rs:36-54 | for any bytes in the file, the secrets of its readable lines all outlive a set iff the file is text throughout or holds no other |
| Secrets.StrayByteLosesAll | devpipe/src/secrets.rs:36-54 | the losing file: one good line and a stray byte, of which a set of any other key leaves nothing |

## Left out

- Screens.ReplayLands: screens are compared as they look, so NUL shows as a space and the text colour of an unmarked, undecorated blank is not compared; the scroll region and scrollback are not modelled.
- Screens.FreshReplay: assumes a grid a terminal could have printed; Roundtrip.AnyInputRoundTrips shows that every input leaves one, in a terminal that blanks the other half of a wide character when one half is printed over, as the vt crate, which is not part of this model, is taken to do.
- Attach.NeverAGap: is about what a client has been sent or painted; whether its screen is the mirror's is said by Viewing.SeesTheSession and Viewing.FollowsIffRepeatsShowNot.
- Viewing.SeesTheSession: of a client and a mirror of one size that does not change, the resize at attaching and later ones not being steps.
- Viewing.FollowsIffAlike: of a client and a mirror left at different points of a sequence only the necessary half is stated.
- Viewing.FollowsIffRepeatsShowNot: of replays that carry all there is; the others are covered by Viewing.FollowsIffAlike.
- Observed.IndistinctIffAlike: for a table of widths with two letters and a mark, as are Resume.FollowsIffResumable, Viewing.FollowsIffAlike and Viewing.ResumesIffCarried.
- Resume.WrapIsLost: of more than one column; in one column a letter need not show it, and Observed.WrapMarks has what does.
- Attach.RunKeeps: a write that fails is a client that hangs up; titles and resizes are not in the log.
- Hearing.NoticesAreMarkers: closes up the gaps; what a gap does is said by Hearing.HeardByStretch and Gaps.ToldAllIffNothingMissed.
- Hearing.KeptUpHearsAll: is about clients that were never resynced; the others are covered by Hearing.HeardByStretch and Gaps.ToldAllIffNothingMissed.
- Relay.SplicesAreRightful: tickets are fresh when drawn; that nobody guesses one is not stated, randomness not being modelled.
- Relay.MapsAreExact: the shared maps are values changed by steps, each one what the code does under one lock, so that any interleaving can be stated; aliasing of the two maps and of sockets is not captured. The same holds of Attach, Panes, Pump's two-sided machine and Lifetime.
- Keys.MintReplaces: assumes hashes that do not collide, are of one length and are distinct per stored key; SHA-256 is a parameter.
- Wire.ReadPrefix: of frames whose encoding is at most 8 MiB; longer ones are what Wire.ReadsBackIffFits is about.
- Secrets.ChangesAreUpdates: from files and with values that survive; what happens to others is exactly what Secrets.SetReadsBack, Secrets.RemoveReadsBack and Secrets.SetKeepsAllIffText say.
- Vt.Dispatch: control functions a replay never emits, C0 controls other than ESC, and resizing.
- Whether a file could be saved is a parameter; `write_private` is all or nothing, and permissions are not modelled.
- The pty and vt crates, sockets, the websocket upgrade and handshake, JSON and the tokio runtime, beyond queue order, bounded broadcast with lag, one-shot and watch channels.
- How long a delivery or a dial may take: a timeout is a step that may come at any time.
- Back-pressure between queues, and the direction from a client's panes to their sessions.
- Listing the machines online, the session check behind Mint, and the site's own cookies.
- The live tree of environments, its registry, docker and ssh command lines, reconnecting clients, the command line and the install scripts.
- Nothing was executed: these are proofs about the model, not runs of the daemon.
