# mini ftpd: a verified model

mini ftpd is a small FTP server. Every client is served by two processes of its own, an FTP process
that speaks the protocol and a nobody process that opens data connections for it; a main process
accepts clients and counts them. This project models the code around the system calls and proves what
that code is for, over every schedule of the calls: short counts, interruptions, failures, urgent data
at any point, and any interleaving of processes.

`dafny verify dfyconfig.toml` checks everything.

## How the model is laid out

| file | what it models |
|---|---|
| `Base.dfy` | options, octets, little-endian words |
| `FileMeaning.dfy` | what a write, an upload and a list of uploads mean for a file |
| `SharedFile.dfy` | many sessions running RETR, STOR and APPE on one file, one system call at a time, under whole-file locks |
| `Handlers.dfy` | one transfer handler as a run of that machine |
| `Transfers.dfy` | what the transfer handlers share: the file, its lock, the data connection, the closing replies, SIGURG in between |
| `Downloads.dfy` | `handle_retr` |
| `Uploads.dfy` | `upload_auxiliary` |
| `Resume.dfy` | interrupted transfers resumed with REST, up to the round trip |
| `DataChannel.dfy` | the two processes on their socketpair, one byte at a time: two program counters, two channels, descriptors |
| `NobodyProcess.dfy` | the nobody process's services and loop |
| `DataConnection.dfy` | PORT, PASV and `establish_transfer` |
| `Session.dfy` | the `Session` object: command lines, SIGURG, time points |
| `CommandLoop.dfy` | login, REST, TYPE, LIST, the table of services, the loop over the commands, and all its runs |
| `ByName.dfy` | what each command of a run does, by the name the client sends and the replies it gets |
| `RateLimiter.dfy` | the speed limit and the sleep |
| `Streams.dfy` | `read_n`, `write_n`, `readline`, `send_char`, `get_char`, `send_buf`, `recv_buf` |
| `AddressCodec.dfy` | the address form of section 4.1.2 of RFC 959 |
| `Tokenizer.dfy` | `split` |
| `Accounting.dfy` | the connection tables, the limit check, and all runs of the accept loop |

Code that updates fields, buffers or tables is modelled by classes and methods and proved against
functions; what several processes do together is a step machine with the run as a list of steps, so
that a theorem about every list is a theorem about every interleaving. The two meet in `Handlers.dfy`
(a handler's own steps are steps of the shared-file machine, and in any run of it what one process does
from its lock on is a run of its handler alone), in `DataConnection.dfy` (the bytes exchanged are those
of the channel machine) and in `Accounting.dfy` (the methods compute the functions that the machine
steps with). The command loop is proved to produce a list of steps too, one per command, each with the
session before and after it and its own handler's promise; what holds over whole sessions (login, the
settings, the traffic with the nobody process, why it ends) is proved of every such list.

What the kernel decides is a plan: a sequence of outcomes, one per call, chosen before the run and
otherwise arbitrary. When a plan has run out, calls complete. Signals are counts of SIGURGs per point
between two steps, and every one of them is accounted for: what a handler says and leaves is a function of
the plan, the SIGURGs and the lines of the control connection. Clocks only move forward and are otherwise arbitrary.

## Where the code is not what it says

Each of these was found in the code and is a theorem here; the code is modelled as it is.

- `connect_in_actv` answers a failed `create_client` without reading the address that follows. From
  then on the address is read as commands: `DataChannel.FramingIffCreateSucceeds`, with a run in
  `FramingCanBeLost` and the consequence in `NoServiceAfterFailure`.
- The nobody process closes the listener only when it accepts, so every PASV not followed by an accepted
  connection leaks one: `DataChannel.ListenersConserved` counts them exactly, with a run in `TwoListeners`.
- `handle_retr` counts requested bytes as sent. A 226 is a complete delivery, for a size that is not stale,
  if and only if every sendfile took all it was asked: `Downloads.CompleteIffFull` for the handler,
  `Handlers.SnapshotComplete` for a handler among others, and the smallest case in
  `Handlers.ShortSendIsLost`. It never sends its 150.
- readme.md promises, for an ABOR, 226 if what it aborts was complete and otherwise 426 and then 226. The
  SIGURG handler shuts the data connection down, but the transfer loops look for the ABOR only after a
  chunk, so the promise is kept exactly when that check is the first to meet it, or a call fails:
  - an upload answers 426 and 226 if and only if a read failed or the check after the last chunk found the
    ABOR (`Uploads.AborAnswer`). An ABOR that arrives while the loop waits to read ends the data instead,
    and the upload that was cut off counts as complete: 150, 226 and 226 (`Uploads.AborUnseen`; with one
    SIGURG, the line ABOR and nothing received in `Uploads.AborWitness`).
  - a download that survives answers 426 and 226 if and only if its last sendfile failed or the check after
    it found the ABOR, and otherwise was complete (`Downloads.AborAnswer`). One that arrives before a
    sendfile with bytes to send gets no answer: sendfile on the connection shut down raises SIGPIPE, which
    nobody handles, and the process ends (`Downloads.AborKills`).
  - an ABOR with no transfer gets 225.
- LIST and NLST, and a transfer refused before its loop, leave a noted ABOR behind; the next transfer then
  stops after one chunk (`CommandLoop.HandleList`, `Downloads.OneRoundOnly`, `Uploads.OneChunkOnly`).
- Without PORT or PASV a transfer is refused twice, with 425 and 550 (`Transfers.Establish`).
- STAT prints a speed limit of 0, the default, as no limit, yet the limiter divides by it:
  `RateLimiter.ZeroLimit` says for which chunks, with one in `ZeroLimitDivides`. The rate is cast to 32
  bits before it is compared, and the limit holds for a chunk if and only if its rate survives the cast:
  `RateLimiter.LimitHoldsIffFits` (a rate that wraps may still be delayed, but never enough;
  `WrappedRatePasses` has one that is not delayed at all).
- `readline` returns an address where a length is meant: `Streams.LengthOnlyAtZero`. Its only caller looks
  at the sign, which is right at every address: `Streams.SignTells`.
- `get_char` returns what its variable held at end of file, where its callers expect 0: `Streams.GetChar`.
  So a nobody process ends after its FTP process only if that byte happens to be 0: `DataChannel.StrayByte`,
  and it can outlive it for any number of reads (`Outlives`).
- `decrease_connection` dereferences a missing entry exactly when a child is reaped between its fork and
  the recording of its pid: `Accounting.CrashIffReapedEarly`, with a run in `EarlyReapHappens`.
- A first STOR cut between its lock and its truncation leaves the old file, whose SIZE misleads a client
  that resumes: `Resume.ResumeAfterEarlyCut` says when, with such a client in `EarlyCutMisleads`.

## Model

| member | source | states |
|---|---|---|
| SharedFile.Serialisable | ftp_protocol.cpp:303-369 | any number of RETR, STOR and APPE, in any interleaving of their system calls: the file is the uploads run one at a time in lock order, each with a prefix of what it received, all of it if it saw the end |
| SharedFile.CompletedUpload | ftp_protocol.cpp:313-367 | in such a run a completed upload turned the version before it into the client's data, that version followed by it, or that version overwritten at the offset, however it was chunked |
| SharedFile.ConcurrentAppends | ftp_protocol.cpp:326-367 | concurrent APPEs end as the concatenation of their payloads in lock order |
| SharedFile.SnapshotRead | ftp_protocol.cpp:231-280 | a RETR delivers a prefix of one slice of one version even if the size it saw is stale; counted, sent and lost add up |
| Handlers.SnapshotComplete | ftp_protocol.cpp:238-278 | in any run a finished RETR whose size is not stale delivered its whole slice of the file as it was at the read grant if and only if each of its sendfile calls took all it was asked |
| SharedFile.VersionIsFileAtGrant | file/file_utility.cpp:126-142 | that version is the file at the moment the read lock was granted, whatever all processes do later |
| SharedFile.Reachable | ftp_protocol.cpp:231-369 | the invariant of all runs: locks, file, every handler's progress and every upload's record agree |
| SharedFile.OthersAgree | file/file_utility.cpp:126-159 | a step of one process leaves what is known of every other one true |
| SharedFile.SendDelivers | ftp_protocol.cpp:256-278 | one sendfile extends the delivered prefix of the slice |
| SharedFile.UploadOwn | ftp_protocol.cpp:313-367 | ftruncate, read and write of the lock holder keep the file equal to its upload applied to the version it locked |
| FileMeaning.WriteAtPointwise | ftp_protocol.cpp:355-362 | every byte of a file after a write at an offset, with the zero gap and the kept tail |
| FileMeaning.WriteAtCompose | ftp_protocol.cpp:342-362 | writes back to back are one write of the concatenation |
| FileMeaning.AppendsConcatenate | ftp_protocol.cpp:326-330 | serial appends concatenate |
| FileMeaning.UploadMeaning | ftp_protocol.cpp:313-330 | byte by byte what each kind of upload leaves |
| Handlers.HandlerInMachine | ftp_protocol.cpp:231-369 | a handler's own steps from its lock on are a run of the concurrent machine |
| Handlers.HandlerServed | ftp_protocol.cpp:231-369 | after any run a process that is not at work can be given any job and go through all of it while the locks are free |
| Handlers.Projected | ftp_protocol.cpp:231-369 | and in any run, whatever the others do in between, the steps of one process since its grant are its handler's run over the file at the grant |
| Handlers.DeliveredIffTaken | ftp_protocol.cpp:256-278 | a finished download loop over a size that is not stale delivered its slice if and only if every sendfile took all it was asked |
| Handlers.DeliveredToTheEnd | ftp_protocol.cpp:242-278 | it delivered the file to its end if and only if, besides, the file had not grown, or there was nothing to deliver |
| Handlers.SendContinues | ftp_protocol.cpp:269-278 | one round of the download loop keeps delivered, lost and left adding up and the delivery a prefix |
| Handlers.ShortSendIsLost | ftp_protocol.cpp:270-273 | a file that fits one chunk, none of which sendfile takes: the loop runs out with nothing delivered |
| Handlers.StoreBegins | ftp_protocol.cpp:313-330 | what an upload has done before its loop, by kind |
| Handlers.StoreReceives | ftp_protocol.cpp:355-358 | read returned some data or the end |
| Handlers.StoreWrites | ftp_protocol.cpp:362 | write took a prefix of the buffer |
| Transfers.LockFile | file/file_utility.cpp:126-159 | the lock is retried over interruptions: granted or not as the first other answer says |
| Transfers.GrantedIs | file/file_utility.cpp:126-159 | it is granted if and only if every failure comes after a grant |
| Transfers.QuietSaid | ftp_protocol.cpp:44-55 | without SIGURGs a handler's replies are just what it said, after all that was there |
| Transfers.WriteFile | socket/block_socket.cpp:314-336 | write_n on a file writes a prefix at the position, all of it unless a call fails, over any short counts |
| Transfers.Signalled | ftp_protocol.cpp:44-55 | at each point of a handler the SIGURGs that arrive take the next lines, as a function of them alone, and an ABOR among them shuts the data connection down |
| Transfers.Establish | ftp_protocol.cpp:222-229 | a refused transfer resets and answers 550, after a 425 if neither mode was on; the request and its answer are exactly one exchange; the process ends only if the nobody process does not answer |
| Transfers.Finish | ftp_protocol.cpp:280-291 | the closing replies of a transfer, and the noted ABOR cleared |
| Downloads.SendOnce | ftp_protocol.cpp:269-276 | one sendfile sends as many of the bytes wanted and there as the call takes, and the time afterwards is the limiter's |
| Downloads.WholeIffFull | ftp_protocol.cpp:256-278 | the rounds of a loop over a size that is not stale deliver the whole slice if and only if every sendfile takes all it is asked |
| Downloads.WholeIfNeverShort | ftp_protocol.cpp:256-278 | with calls that never take less than a chunk they do so whatever the size |
| Downloads.MovesDelivered | ftp_protocol.cpp:270-275 | the limiter is told of every byte delivered, once |
| Downloads.SendLoop | ftp_protocol.cpp:254-278 | the download loop ends whatever sendfile returns; it has sent what the plan of returns delivers, round by round, at the times the limiter makes of it; it breaks off if and only if a sendfile fails or the check after it finds an ABOR noted; when it ends the process |
| Downloads.OpenToRead | ftp_protocol.cpp:231-247 | open, fstat, lock, restart offset and seek: refused if and only if one of them fails |
| Downloads.HandleRetr | ftp_protocol.cpp:222-292 | RETR: the request made, the bytes sent as the sendfile returns deliver them, the machine run they come from, the closing replies, all SIGURGs at its points handled, nothing left noted or open, no earlier than the limiter allows; when it is refused, fails or ends the process, and what is sent by then |
| Downloads.RetrReplies | ftp_protocol.cpp:280-291 | the replies of a served RETR: 426 if its loop broke off and 226 if not, and then a 226 if and only if an ABOR was noted |
| Downloads.RetrAnswer | ftp_protocol.cpp:280-285 | a served RETR with no ABOR noted says 226 and nothing else if and only if no sendfile failed, and 426 if and only if one did; with a 226 it went through all the rounds that the size asks for |
| Downloads.QuietRetr | ftp_protocol.cpp:254-291 | without SIGURGs: 426 if and only if one of the sendfile calls that the size asks for fails, else 226 |
| Downloads.SentFrom | ftp_protocol.cpp:241-278 | RETR writes nothing and sends a prefix of the file from its offset on, however it ends |
| Downloads.CompleteDownload | ftp_protocol.cpp:254-285 | a RETR whose reply is 226, over sendfile calls that never fail or take less than 64 KiB, sent all of the file from the offset on that was there when its size was taken |
| Downloads.CompleteIffFull | ftp_protocol.cpp:254-285 | a RETR whose reply is 226, of a file that has not shrunk, sent all that was there when its size was taken if and only if no sendfile took less than was left or 64 KiB |
| Downloads.CompleteToTheEnd | ftp_protocol.cpp:234-285 | and the file from the offset to its end if and only if, besides, it did not grow while RETR waited for its lock, or there was nothing to send |
| Downloads.WholeIfTaken | ftp_protocol.cpp:256-278 | rounds that take all that is asked and there deliver the whole slice, also of a size larger than the file |
| Downloads.LaterRoundMakesUp | ftp_protocol.cpp:269-271 | not only those: a file of two bytes sent whole although the first sendfile was short |
| Downloads.AborAnswer | ftp_protocol.cpp:277-291 | a RETR during which an ABOR is noted answers 426 and 226 if and only if its last sendfile failed or the check after it found an ABOR noted, and otherwise 226 and 226 with all its rounds done |
| Downloads.AborKills | ftp_protocol.cpp:44-55 | an ABOR noted before the first sendfile, with something to send, ends the process |
| Downloads.RetrExits | ftp_protocol.cpp:258-271 | once served it ends the process only when select times out, the client has gone, an ABOR was noted with something left to send, or for want of a line |
| Downloads.OneRoundOnly | ftp_protocol.cpp:277 | an ABOR left noted by an earlier command lets one round through |
| Downloads.DownloadSpeed | ftp_protocol.cpp:254-278 | a RETR whose rates fit sends at most (limit + 1) bytes per second of the time that passes until its reply, a clamp and a tick per chunk aside |
| Downloads.SlowDownload | ftp_protocol.cpp:254-278 | over rounds of 17 microseconds or more: at most (limit + 1) bytes per second of that time and 1.001 microseconds a round, with no clamp and no rate that wraps |
| Uploads.YieldIs | ftp_protocol.cpp:355-358 | what some rounds of read put into the buffer is a prefix of all the client's connection yields, and all of it when the next read ends the data |
| Uploads.StoreChunk | ftp_protocol.cpp:355-362 | one chunk from the data connection to the file |
| Uploads.ReceiveLoop | ftp_protocol.cpp:340-367 | the upload loop over interruptions, errors, end of data and aborts: received is what the reads yield, stored is what was received unless the file fails, at the times the limiter makes of it; it breaks off after a chunk if and only if an ABOR is noted by then, and a read after an ABOR finds what was queued or the end; its err_flag and when it ends the process |
| Uploads.LockToWrite | ftp_protocol.cpp:303-309 | open, fstat and lock: refused if and only if one of them fails |
| Uploads.Position | ftp_protocol.cpp:311-336 | truncate or seek and the 150, and what a refusal leaves in the file |
| Uploads.UploadAuxiliary | ftp_protocol.cpp:294-381 | STOR and APPE: the file is the version locked with the bytes applied that the client's connection yields, the replies, all SIGURGs at its points handled, nothing left noted or open, no earlier than the limiter allows; when it is refused, fails or ends the process, and what is stored by then |
| Uploads.UploadReplies | ftp_protocol.cpp:336-381 | the replies of a served upload: 150 with the size; 426 if its loop broke off after a chunk or a read failed, 226 at the end of the data, 451 for data the file did not take; and then a 226 if and only if an ABOR was noted |
| Uploads.StoreAnswer | ftp_protocol.cpp:351-374 | a served upload with no ABOR noted says 150 and then 226, 426 or 451 and nothing else, if and only if its last read found the end of the data, failed, or brought data that the file did not take |
| Uploads.QuietStore | ftp_protocol.cpp:351-374 | the same without SIGURGs, for the reads as the plan has them |
| Uploads.CompleteMeansStored | ftp_protocol.cpp:313-374 | an upload whose second reply is 226 leaves, by STOR at 0, all the client's connection yielded; by STOR after REST the version locked overwritten with that from there; by APPE that version followed by it |
| Uploads.YieldAll | ftp_protocol.cpp:355 | reads that each bring some of the data, up to 64 KiB, yield all of it |
| Uploads.QuietPlan | ftp_protocol.cpp:351-358 | without a SIGURG the loop sees the reads as planned |
| Uploads.AborAnswer | ftp_protocol.cpp:366-381 | an upload during which an ABOR is noted answers 150, its verdict and 226, the verdict being 426 if and only if a read failed or the check after the last chunk found an ABOR noted |
| Uploads.AborUnseen | ftp_protocol.cpp:355-381 | an ABOR noted before a read that finds nothing queued passes for the end of the data: 150, 226 and 226, with what had come stored |
| Uploads.AborWitness | ftp_protocol.cpp:44-55 | with one SIGURG before the first read and the line ABOR: 150, 226 and 226, and nothing stored |
| Uploads.ReadsAt | ftp_protocol.cpp:351-358 | the rounds the loop sees are those of the plan up to the first read after an ABOR, which finds what was queued, an error that had arrived, or the end |
| Uploads.OneChunkOnly | ftp_protocol.cpp:366 | an ABOR left noted by an earlier command lets one chunk through |
| Uploads.UploadSpeed | ftp_protocol.cpp:342-367 | the speed limit of an upload, as for a download |
| Uploads.SlowUpload | ftp_protocol.cpp:342-367 | over rounds of 17 microseconds or more, as for a download |
| Resume.ResumedUpload | ftp_protocol.cpp:313-367 | an upload cut and resumed any number of times keeps the file a prefix of the document and ends with exactly it |
| Resume.ResumeOver | ftp_protocol.cpp:320-325 | resuming over an old file gives the document if and only if the old file was a prefix of it |
| Resume.ResumeAfterEarlyCut | ftp_protocol.cpp:311-318 | a first attempt cut before ftruncate misleads the client exactly when the old file was no prefix |
| Resume.EarlyCutMisleads | ftp_protocol.cpp:311-325 | two attempts after which the file is not the document |
| Resume.ResumedDownload | ftp_protocol.cpp:241-278 | a download cut and resumed at the bytes received stays a prefix, and is the document once a slice is whole |
| Resume.RoundTrip | ftp_protocol.cpp:448-463 | upload through any cuts, download through any cuts: the same document |
| Resume.DownloadIsDelivery | ftp_protocol.cpp:222-292 | what handle_retr promises is what the resumed download assumes, with a whole slice if no sendfile was short |
| Resume.UploadIsAttempt | ftp_protocol.cpp:294-381 | what upload_auxiliary promises is what the resumed upload assumes |
| DataChannel.FramingIffCreateSucceeds | ftp_protocol.cpp:127-143 | in every reachable state at its command loop the nobody process will find nothing or exactly one request, if and only if create_client never failed |
| DataChannel.FramingCanBeLost | ftp_protocol.cpp:130 | a run in which it fails |
| DataChannel.NoServiceAfterFailure | ftp_protocol.cpp:111-123 | after such a failure no further request is served while both processes live |
| DataChannel.OneReplyEach | ftp_protocol.cpp:111-167 | every request gets one reply of its own kind (a Connect its own address's connection or a bad status, an Accept an accepted connection or a bad status, a Listen a port), understood as such; between commands both channels are empty |
| DataChannel.DecidedAs | ftp_protocol.cpp:127-167 | in every run the reply decided on is the connection to the address of the request if the client can be reached, the port of the new server, or a connection on the port last announced if a client connects, and otherwise a bad status |
| DataChannel.CanAccept | ftp_protocol.cpp:157-162 | and whenever it is about to accept, a client can be accepted |
| DataChannel.CommandBytesOnly | ftp_protocol.cpp:113-121 | the byte read as a command is the command byte of the request being made |
| DataChannel.NoDeadlock | ftp_protocol.cpp:176-220 | in every reachable state in the middle of an exchange one of the two processes has a step that both survive |
| DataChannel.ExchangesEnd | ftp_protocol.cpp:111-220 | no schedule has more steps of an exchange than its work bound |
| DataChannel.ExchangeCompletes | ftp_protocol.cpp:111-220 | every exchange begun in a run can be completed within that bound |
| DataChannel.ListenerAgreement | ftp_protocol.cpp:145-167 | with passive mode on, the nobody process's listener is open and is the one last announced, and every accept is on it |
| DataChannel.ListenersConserved | ftp_protocol.cpp:145-167 | open listeners are the announced ports less the accepted connections |
| DataChannel.TwoListeners | ftp_protocol.cpp:145-155 | a run with two open listeners at the command loop |
| DataChannel.StrayByte | ftp_protocol.cpp:113-121 | once the FTP process has exited and the channel is empty, the nobody process ends at its next read if and only if the byte its variable held is 0, and with a byte that is no command stays where it is |
| DataChannel.Outlives | socket/block_socket.cpp:397-407 | so it can outlive the FTP process for any number of reads |
| DataChannel.Reachable | ftp_protocol.cpp:111-220 | the invariant of all runs: channel contents are determined by the two program counters |
| DataChannel.ReadsNext | socket/block_socket.cpp:426-432 | the nobody process reads the next byte of the request as what it is |
| NobodyProcess.Nobody.ConnectInActv | ftp_protocol.cpp:127-143 | reads exactly the address and answers with the descriptor or a bad status, except that a failed create_client leaves the address unread; ends the process only when no address can be read or a call is cut short |
| NobodyProcess.Nobody.ListenInPasv | ftp_protocol.cpp:145-155 | a new listener on a descriptor not in use, its port sent, the old one left open; ends the process exactly when there is no server |
| NobodyProcess.Nobody.AcceptInPasv | ftp_protocol.cpp:157-167 | a connection of the current listener handed over and the listener closed, or a bad status; ends the process only when handing over is cut short |
| NobodyProcess.Nobody.SendFd | ipc/socket_ipc.cpp:46-74 | one byte with one descriptor on it, or the end of the process when the call is cut short |
| NobodyProcess.Serve | ftp_protocol.cpp:111-167 | a byte that begins a request is served as that request: a Connect is answered with a connection dialled to its address if and only if the client was created and dialled, an Accept with one on the port of the current listener if and only if a client connects and it is open, both badly otherwise; a Listen with the port of the server, which then is the current listener |
| NobodyProcess.NobodyLoop | ftp_protocol.cpp:111-123 | given the bytes of any requests, in any pieces, the loop reads them as those requests and answers each in order with the connection or port its turn calls for, while create_client succeeds; it then ends only when a call is cut short or there is no server for the next request |
| NobodyProcess.ListeningIs | ftp_protocol.cpp:145-167 | the current listener is on a port if and only if some earlier LISTEN got its server there, no later one got another, and no client has been accepted since |
| NobodyProcess.AnswersAre | socket/block_socket.cpp:390-416 | the bytes of the answers and the descriptors handed over, in order: 2; 1 and the byte that carries the descriptor; or the port |
| NobodyProcess.WireHead | socket/block_socket.cpp:409-432 | a request is cut off the wire at its own end |
| DataConnection.HandlePasv | ftp_protocol.cpp:176-190 | one LISTEN out, two bytes of port in, quoted in the 227 |
| DataConnection.AnnouncedIsUsable | ftp_protocol.cpp:176-190 | the 227 parses back to the listen address and the listener's port |
| DataConnection.EstablishTransfer | ftp_protocol.cpp:191-220 | the request of the mode that is on goes out whole and its answer is read whole; no mode or both is refused; the process ends only without a proper answer |
| DataConnection.RecvFd | ipc/socket_ipc.cpp:76-109 | one byte and its descriptor, or the end of the process |
| DataConnection.ReplyUnderstood | ftp_protocol.cpp:202-216 | a reply of the nobody process is understood as what it is, to its last byte |
| Transfers.ArrangedBytes | ftp_protocol.cpp:191-220 | what goes out for a transfer is the byte 2, or 1 with the length and the address; any answer but 2 is good, and a 1 brings a descriptor |
| Sessions.Session.ParseCommand | session.cpp:18-33 | reads exactly one line, whatever the peeks, and parses it; ends only if a read fails or no line is left |
| Sessions.CommandsAdd | session.cpp:18-33 | commands parsed in several goes are the lines of the control connection in order, each once |
| Sessions.ParseTokens | session.cpp:25-30 | the command is the first token in upper case, the argument the second |
| Sessions.LineParses | session.cpp:25-30 | a command, a blank, an argument and the line's ending parse to that command with its letters raised and to that argument; for SITE the argument is the rest of the line |
| Sessions.LineAlone | session.cpp:25-30 | a command alone parses to itself, raised, without an argument |
| Sessions.BlankLine | session.cpp:25-30 | a blank line repeats the command before it without its argument |
| Sessions.NextLine | session.cpp:21 | the next line is what is up to the first newline among the next 1023 bytes, or else these |
| Sessions.TextIs | session.cpp:25 | its bytes are its characters, up to a zero byte |
| Sessions.Session.SigurgHandler | ftp_protocol.cpp:44-55 | without a data connection nothing; else exactly one line is read, an ABOR (also with the Telnet prefix) is noted and anything else answered 500; ends only for want of a line |
| Sessions.Session.Interrupts | ftp_protocol.cpp:44-55 | at a point between two steps every SIGURG that arrives is handled, and with a data connection open each takes one command; ends only if a read fails or more SIGURGs arrive than lines are left |
| Sessions.SigurgsBalance | ftp_protocol.cpp:44-55 | no SIGURG of the points passed is lost and none answered twice: lines taken and SIGURGs still to come add up to those that were to come, with a data connection open; without one no line is taken |
| Sessions.NotedStays | ftp_protocol.cpp:51 | an ABOR once noted stays noted, and none is noted without a data connection |
| Sessions.AborLine | session.cpp:25-30 | the line "ABOR" is one command, and that one |
| Sessions.UrgentLine | ftp_protocol.cpp:44-55 | the line a SIGURG takes counts as an ABOR if and only if its letters spell that, in either case, by themselves or behind Telnet's interrupt and synch |
| Sessions.MainAll | ftp_protocol.cpp:53 | the replies apart from the SIGURG handler's 500 are all there are if and only if there is no such 500 |
| Sessions.Session.GetPortAddr | session.cpp:43-65 | the port address is the parsed argument |
| Sessions.Session.LimitTransmissionSpeed | session.cpp:79-104 | the chunk is limited from the last time point by a sleep of just the pause computed: the time afterwards is exactly that, and the time point moves to it |
| CommandLoop.HandleUser | ftp_protocol.cpp:385-392 | the first known name fixes the uid, which never changes after |
| CommandLoop.HandlePass | ftp_protocol.cpp:393-411 | logs in, with the effective uid of the account, if and only if USER fixed an account whose shadow entry is what crypt makes of the password and it, and else answers 530 and leaves login and effective uid; ends the process exactly when a right password cannot be carried out |
| CommandLoop.LoginSafety | ftp_protocol.cpp:89-93 | in every run a command other than USER and PASS that does anything at all besides answering 500, to session, file, clock or socketpair, comes after a PASS whose password crypts to the shadow entry of the account of the first accepted USER, runs as that account, and the account is the same to the end |
| CommandLoop.LoginEarned | ftp_protocol.cpp:385-411 | a process is logged in only because some PASS has a password that crypts to the shadow entry of the account that an earlier USER fixed |
| CommandLoop.LoginStays | session.h:34 | once an account is fixed no later command changes it, and a login is never undone |
| CommandLoop.LoggedInIsUser | process/process_utility.cpp:47-55 | a logged-in process has the effective user of its one account |
| CommandLoop.BeforeLogin | ftp_protocol.cpp:89-93 | before a login no setting but the account changes and the nobody process is asked nothing |
| CommandLoop.RestartRoundTrip | ftp_protocol.cpp:604-606 | the offset a client prints is the one that is set |
| CommandLoop.StolWritten | ftp_protocol.cpp:606 | white space, a sign, digits and anything after them: the number, if it fits 64 bits |
| CommandLoop.HandleRest | ftp_protocol.cpp:604-611 | the restart position is the number given; anything else ends the process |
| CommandLoop.HandleType | ftp_protocol.cpp:590-603 | A and I switch the mode, nothing else does |
| CommandLoop.HandleList | ftp_protocol.cpp:415-447 | a listing's replies, points and reset; an ABOR noted stays noted; ends the process only for want of lines or of an answer, or when an ABOR comes before the first entry is written |
| CommandLoop.Dispatch | ftp_protocol.cpp:88-100 | a command runs its own handler with its own limit, and all that handler promises is passed on; one that does not run, before login or for want of a handler, leaves every field of the session but the replies, the file, the clock and both streams as they were |
| CommandLoop.StartFtpService | ftp_protocol.cpp:82-101 | for any number of commands: a run in which each line read is parsed and its command performed, no data connection open between commands; if the process ended, what ended it |
| CommandLoop.RunSettings | ftp_protocol.cpp:84-101 | login, account, user, mode flags, port address and type after a run are the fold of its commands over those before it |
| CommandLoop.RunTook | ftp_protocol.cpp:84-101 | every line taken off the control connection in a run is one of its commands or answered a SIGURG |
| CommandLoop.RunInOrder | ftp_protocol.cpp:88 | the commands of a run are lines of the control connection, each further on than the last |
| CommandLoop.QuietRun | ftp_protocol.cpp:88 | without SIGURGs they are just those lines, in order |
| CommandLoop.RunAsks | ftp_protocol.cpp:176-220 | over steady calls a run writes to the nobody process the requests of its commands, one after another, and reads the answers |
| CommandLoop.AskedWellFormed | ftp_protocol.cpp:199 | all these requests are well formed, which is what the nobody process's loop assumes |
| CommandLoop.WhyItEnds | ftp_protocol.cpp:88-100 | the process ends only if the control connection fails or has fewer lines than commands and SIGURGs that want one, or by QUIT, a REST without a number, a login that cannot be carried out, or a transfer without an answer from the nobody process, timing out, losing its peer or shut down by an ABOR before it writes |
| ByName.LoginFirst | ftp_protocol.cpp:89-93 | a step of a run before the login by any name but USER and PASS: 500, and nothing else changes |
| ByName.UnknownName | ftp_protocol.cpp:97-98 | by a name outside the table: 500, and nothing else changes |
| ByName.UnimplementedName | ftp_protocol.cpp:99 | by STRU, MODE, MDTM, EPRT and EPSV: 502, and nothing else changes |
| ByName.OneCallName | ftp_protocol.cpp:649-684 | by the names of the handlers of one call and one reply: session, file and clock are as they were |
| ByName.UserName | ftp_protocol.cpp:385-392 | by USER: the account is fixed if none is and the name is known, and 331, else 530 |
| ByName.PassName | ftp_protocol.cpp:393-411 | by PASS: logged in as the account that USER fixed if and only if crypt of the password and its shadow entry is that entry; else 530 and nothing changes |
| ByName.LoggedInByPassword | ftp_protocol.cpp:385-411 | in every run a process is logged in only if an earlier USER named its account, with none fixed before, and some later PASS has a password that crypts to that account's shadow entry; it runs as that account |
| ByName.NoEffectBefore | ftp_protocol.cpp:89-93 | and a command other than USER and PASS that does anything but answer 500 comes after both |
| ByName.TypeName | ftp_protocol.cpp:590-603 | by TYPE: A and I switch the mode, with 200, and anything else is answered 500 |
| ByName.RestName | ftp_protocol.cpp:604-611 | by REST with a number: the next transfer starts there, with 350, if it fits 63 bits, and otherwise the process ends |
| ByName.RestNothing | ftp_protocol.cpp:606 | by REST without one: the process ends |
| ByName.PortName | ftp_protocol.cpp:170-175 | by PORT with six decimal numbers: active mode is on and the address is those bytes |
| ByName.PasvName | ftp_protocol.cpp:176-190 | by PASV: passive mode is on, the byte 3 goes out, and the two bytes read are quoted as the port |
| ByName.QuitName | ftp_protocol.cpp:624-628 | by QUIT: 221, and the process ends |
| ByName.AborName | ftp_protocol.cpp:629-632 | by ABOR outside a transfer: 225 and nothing else |
| ByName.RetrName | ftp_protocol.cpp:222-292 | by RETR, however it ends: the file is left to its writers, and what was sent is a prefix of it from the restart position on |
| ByName.RetrSays | ftp_protocol.cpp:222-292 | by RETR with no SIGURG to come, every reply: 425 and 550 or 550 for the wrong modes, 550 for a bad status and for a file that cannot be opened, locked and positioned, else 426 if a sendfile that the size asks for fails and 226 if none does; when the restart position is used up |
| ByName.RetrComplete | ftp_protocol.cpp:254-285 | a RETR answered 226 sent all that was there if and only if no sendfile was short |
| ByName.StorName | ftp_protocol.cpp:294-384 | a STOR answered 226 leaves the client's data, and after REST the version locked overwritten with it there |
| ByName.AppeName | ftp_protocol.cpp:294-384 | an APPE answered 226 leaves the version locked followed by the client's data |
| ByName.StoreSays | ftp_protocol.cpp:294-384 | by STOR and APPE with no SIGURG to come, every reply, and what a refusal leaves of the file and the restart position |
| ByName.ListName | ftp_protocol.cpp:415-447 | by LIST and NLST with no SIGURG to come: 150 and 226 with a connection, else 550, after 425 if no mode was on; file, position and clock are as they were |
| ByName.RetrEnds | ftp_protocol.cpp:199-278 | with no SIGURG to come and an answer from the nobody process, a RETR ends the process only when select times out or the client has gone |
| ByName.StoreEnds | ftp_protocol.cpp:199-367 | an upload only when select times out |
| ByName.ListGoesOn | ftp_protocol.cpp:415-447 | and a listing never |
| ByName.ListKilled | ftp_protocol.cpp:424-426 | a listing that survives an ABOR before its first entry had no entry to write |
| ByName.EndsByName | ftp_protocol.cpp:88-100 | a command that ends the process is QUIT, a REST without a number that fits, a PASS with the right password that cannot be carried out, or a transfer; after a login, PASS aside |
| ByName.RunEnds | ftp_protocol.cpp:84-101 | and a run ends only so, or with a control connection that fails or holds no newline and less than 1023 bytes |
| RateLimiter.TransferBound | session.cpp:79-104 | bytes of a whole transfer are at most (limit + 1) times its clock time, 0.01 s per clamped chunk and a tick of clock and sleep per chunk |
| RateLimiter.ChunkBound | session.cpp:84-97 | the same for one chunk |
| RateLimiter.SpeedLimit | session.cpp:79-104 | chunks limited one after another carry at most (limit + 1) bytes per second of the time that really passes, 0.01 s per clamped chunk and a tick per chunk aside |
| RateLimiter.SlowMoves | session.cpp:84-97 | chunks of at most 64 KiB that take 17 microseconds or more each: no rate wraps and no time is clamped |
| RateLimiter.MeasuredIs | session.cpp:79-88 | a chunk's time is taken to be the whole microseconds between two readings of the clock, or 10 ms if there are none |
| RateLimiter.LimitHoldsIffFits | session.cpp:89-97 | a chunk and its pause stay within limit + 1 bytes per second if and only if the rate fits the 32-bit cast |
| RateLimiter.PausedRate | session.cpp:89-97 | with exact sleep a chunk goes at most at limit + 1 bytes per second: the floor costs less than one |
| RateLimiter.NoOverThrottling | session.cpp:89-97 | a chunk and its pause take no longer than the chunk took or the limit asks for |
| RateLimiter.SleepForSeconds | process/process_utility.cpp:14-23 | any number of interruptions: exactly the requested nanoseconds are slept and tv_nsec stays in range |
| RateLimiter.NanosIsFloor | process/process_utility.cpp:18-20 | the split into seconds and nanoseconds loses less than one nanosecond |
| RateLimiter.ZeroLimit | session.cpp:90-95 | with limit 0 the division is avoided exactly for chunks whose integer rate is 0 |
| RateLimiter.ZeroLimitDivides | session.cpp:92-94 | a chunk that divides by the limit 0 |
| RateLimiter.ChunkFits | ftp_protocol.cpp:269-276 | rates of the transfer loops fit from 16 microseconds per chunk on |
| Streams.ReadN | socket/block_socket.cpp:290-312 | all that was asked for or is there, in place, over any short counts and interruptions |
| Streams.WriteN | socket/block_socket.cpp:314-336 | all of the data, or a prefix if a call fails |
| Streams.ReadLine | socket/block_socket.cpp:356-388 | for every sequence of peek sizes: the stream up to the first newline or a full buffer, exactly that consumed, nothing written outside |
| Streams.LinesPartition | socket/block_socket.cpp:356-388 | successive lines and the unfinished rest are the stream, with nothing lost or repeated |
| Streams.LinesUnique | socket/block_socket.cpp:356-388 | there is no other way to cut it into lines |
| Streams.LengthOnlyAtZero | socket/block_socket.cpp:374 | the result is a length if and only if the line has no newline or the buffer lies at address 0 |
| Streams.SignTells | session.cpp:21-23 | the sign, all parse_command looks at, is right at every address: positive if a line was read, 0 if the stream ended first |
| Streams.SendChar | socket/block_socket.cpp:390-396 | the character, whatever interrupts |
| Streams.GetChar | socket/block_socket.cpp:397-407 | the next byte, or at the end whatever the variable held |
| Streams.FrameRoundTrip | socket/block_socket.cpp:409-432 | a framed message is received as sent with the rest untouched, or refused if too long |
| Streams.SendBuf | socket/block_socket.cpp:409-416 | writes the frame |
| Streams.RecvBuf | socket/block_socket.cpp:426-432 | receives a frame that fits, in any pieces, and leaves the rest |
| AddressCodec.AddressRoundTrip | session.cpp:43-65 | parsing the printed 227 body gives back the address and the port, for every address and 16-bit port |
| AddressCodec.PortParsed | session.cpp:43-65 | six numbers with any one non-digit between them are stored byte by byte, port in network order |
| AddressCodec.AddressIs | session.cpp:43-65 | the 227 body written out, and the sixteen bytes that PORT makes of it |
| AddressCodec.ExtractWritten | session.cpp:48-49 | one number of a PORT as a client may write it: the largest unsigned for one too large, a negative one wrapped |
| AddressCodec.NumbersStop | session.cpp:45-52 | a number too large or missing ends the parsing, and the array keeps what it held from there on |
| AddressCodec.ParseNumbers | session.cpp:45-52 | the extraction loop, with its failures |
| AddressCodec.DecimalValue | ftp_protocol.cpp:188 | printing a number and reading its digits |
| Tokenizer.Split | session.cpp:109-125 | the two-position loop ends and returns the recursive tokenizer's tokens |
| Tokenizer.TokensExist | session.cpp:109-125 | the tokens are maximal delimiter-free runs, in order, with all the characters that are no delimiters |
| Tokenizer.TokensUnique | session.cpp:109-125 | no other cut has that property |
| Tokenizer.JoinRoundTrip | session.cpp:106-107 | splitting a join returns the parts |
| Accounting.Accounted | main.cpp:30-57 | in every run that has not crashed counter, per-address counts and pid table agree with the children |
| Accounting.AdmissionBound | connection_limit.cpp:34-46 | admitted children never exceed either limit, although each decides on its own snapshot |
| Accounting.AdmittedIffWithin | connection_limit.cpp:34-46 | a child that checks is rejected if and only if, at its own fork, the children not yet reaped (itself included) were more than the limit, or those of its address more than theirs |
| Accounting.NextClient | main.cpp:30-57 | from every state at the accept loop the next client can be taken, and its child decides for itself |
| Accounting.CrashIffReapedEarly | connection_limit.cpp:20-23 | the missing entry is dereferenced exactly in runs that reap a child before its pid is recorded |
| Accounting.EarlyReapHappens | main.cpp:13-17 | such a run |
| Accounting.Reachable | main.cpp:13-57 | the invariant of all runs, with what every child's snapshot must count |
| Accounting.ConnectionTables.IncreaseConnection | connection_limit.cpp:12-16 | the tables after an accept |
| Accounting.ConnectionTables.DecreaseConnection | connection_limit.cpp:18-32 | the tables after a reap, and when there are none |
| Accounting.ConnectionTables.CheckConnectionLimit | connection_limit.cpp:34-46 | admitted if and only if neither count exceeds its limit; the lookup changes no count |

## Left out

- Socket creation, binding, connecting, select and interface lookup: they succeed or fail as the plan says; timeouts on data connections end the process with 421.
- `create_server_or_exit` failing ends the nobody process, and so does a dead peer (SIGPIPE); results about both processes hold while both live.
- The text of directory listings (only whether there is an entry counts), permission strings and `unlock_file`, which is never called.
- Loading of the configuration: its values are parameters, and the listen address is four numbers.
- PWD, CWD, CDUP, MKD, RMD, DELE, SIZE, RNFR, RNTO, SITE, STAT, SYST, FEAT, HELP and NOOP: one call or fixed text each; the loop runs them as one reply.
- File names: a handler is given the file it opens. A SIGURG between establish_transfer and open can replace the argument, and so the file; renames and unlinks during a transfer would need an inode model.
- `getpwnam`, `getpwuid`, `getspnam` and `crypt` are tables and a function that may differ from command to command.
- The idle timer of the control connection, which ends the process while it waits for a command.
- Signals inside a table update, inside `readline` or inside a reply: those are single steps.
- Floating-point rounding: the limiter is over exact reals, with its floor, clamp, microseconds, nanoseconds and 32-bit cast kept. With a limit of 0 the quotient is infinite and its conversion to `time_t` undefined; the sleep is then of any length.
- `gettimeofday` failing, and clocks that go backwards.
- Short counts on the socketpair: in `DataChannel.dfy` every transfer is one byte, which any count is a run of.
- RateLimiter.TransferBound: the allowance has a microsecond per chunk besides the nanosecond, because the clock is read in whole microseconds.
- RateLimiter.LimitHoldsIffFits: for the one limit 2^32 - 1 a chunk of exactly 2^32 bytes per second is within the bound although its rate wraps.
- CommandLoop.StartFtpService: the time and the files' contents between two commands are not tied, as other processes and waiting come in between.
- SharedFile.SnapshotRead: for a negative restart offset, which only a negative REST sets, the slice starts at 0 and the count includes bytes that are not there.
- DataChannel.ListenerAgreement: states what holds while both processes live and create_client has not failed.
- Uploads.ReceiveLoop: what a read finds after the shutdown is taken from Linux TCP: bytes or an error that had arrived, then the end. Which bytes had arrived is part of the plan.
