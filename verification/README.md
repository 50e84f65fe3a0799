# daex in Dafny: the CDDB client and the extractor's rules

daex is a command-line digital audio extractor. It reads the table of contents
(TOC) of an audio CD, asks a CDDB server for the disc's titles, and copies each
track into a Microsoft RIFF WAVE file. This project models two source files:

- `cddb.c`, the CDDB client. It covers:
  - the disc-ID hash and the `cddb query` command built from the TOC;
  - the buffered socket line reader (`fnReadChar`, `fnReadLine`);
  - the CDDBP session. Each response code gets a per-state verdict. Requests
    `cddb hello`, `cddb query` and `cddb read` are sent in turn. The lookup is
    renegotiated when the server missed the handshake, and "quit" is sent only
    when it is still allowed;
  - the reader of the `DTITLE`/`TTITLE` entry;
  - the conversion of titles into file names, and the `<disc>-<NN>-<track>.wav`
    names built from them;
  - the artist/album split of the information report.
- `daex.c`, the extractor's own rules. It covers:
  - the speed table;
  - the WAVE header, initialised in place and finalised with the lengths;
  - the per-track table of block addresses, with the 150-frame pregap and the
    11250-block CD-EXTRA gap, the generic `track-NN.wav` names and the `-o`
    output name;
  - the checks of `fnProcessTrack` and its `.1` … `.10` renaming of existing
    files;
  - the block loop of `fnExtractAudio` with its per-block read retry;
  - the `-c host:port` option.

The code changes state step by step, and the model keeps that form:

- The line reader is a class with its 256-byte buffer, position and count.
  The socket is a class holding the read results still to come.
- The session talks to a `Connection` object. It hands out reply lines and
  appends every command written to a log.
- The WAVE header is a class whose fields are set in place.
- The drive is a script of read outcomes.
- The output directory is a set of existing names.
- The track table is an array filled in a loop.

Every method is proved against a functional description of the same behaviour.
Lemmas then state what that description promises: round trips, bounds, the
response-code table, the retry bounds and the renaming rule.

Files, one module each:

- `text.dfy`: printf and sscanf renderings and their inverses.
- `toc.dfy`: TOC entries and the per-track record.
- `disc_id.dfy`: the hash and the query.
- `line_reader.dfy`: the buffered reader.
- `protocol.dfy`: response codes, requests and the lookup loop.
- `entry.dfy`: the entry reader.
- `session.dfy`: the session wrapper and `fnCDDB_DoCDDBQuery`.
- `filenames.dfy`: the title conversion and the stored names.
- `report.dfy`: the artist/album split.
- `wav.dfy`: the WAVE header.
- `extract.dfy`: the block loop.
- `disc_info.dfy`: the speed table, block ranges, the track table and `-o`.
- `process.dfy`: `fnProcessTrack`.
- `arguments.dfy`: `-c`.

Quirks of the code that the model keeps:

- The hash is reduced modulo `0xff` (255), not 256.
- The seconds field of the disc ID is the raw lead-out minus first-track
  difference, without the 2 seconds of lead-in. Only the stored total and the
  last number of the query add them.
- The title conversion is idempotent only for track titles. In a disc title, a
  slash becomes a dash, and a second conversion turns that dash into an
  underscore.
- A slash overwrites a replacement character written just before it.
- In the report, a disc title ending in `/` gives an empty album. Only a title
  ending in `/ ` gives `-`.

## Model

| member | source | states |
|---|---|---|
| DiscId.TrackHash | cddb.c:40-58 | the digit loop returns the sum of the decimal digits of its argument (0 for any argument <= 0) |
| DiscId.DigitSumOfDecimal | cddb.c:50-57 | the hash equals the sum of the digit characters that `%d` prints for the same number |
| DiscId.DigitSumMod9 | cddb.c:50-57 | the hash keeps its argument's residue modulo 9 (casting out nines) |
| DiscId.DigitSumBound | cddb.c:50-57 | the hash never exceeds its argument |
| DiscId.SumTrackHashes | cddb.c:100-102 | the hash loop gives the sum of the track hashes of the first n TOC entries |
| DiscId.DiscIdValue | cddb.c:116-117 | `(hash % 0xff) << 24`, or-ed with `seconds << 8` and `n`, fits in 32 bits when seconds < 2^16 and n < 2^8 |
| DiscId.DiscIdFields | cddb.c:116-117 | the hash residue, the raw seconds and the track count can each be read back out of the ID |
| DiscId.DiscIdText | cddb.c:116-117 | `%08x` of the ID is exactly 8 characters |
| DiscId.DiscIdTextRoundTrip | cddb.c:116-117 | the 8 hex digits read back as the ID |
| DiscId.OffsetsText | cddb.c:145-155 | the offsets text built with `strncat` never exceeds the 499 characters of its buffer |
| DiscId.OffsetsTextFits | cddb.c:152-155 | while the offsets fit the buffer, nothing is cut off them |
| DiscId.OffsetWords | cddb.c:145-158 | one offset word per track |
| DiscId.Offsets | cddb.c:148-158 | the offset array has exactly one entry per track |
| DiscId.Durations | cddb.c:160-165 | the duration array has exactly one entry per track |
| DiscId.OffsetsAt | cddb.c:148-158 | offset i is `(min*60+sec)*75+frame` of TOC entry i |
| DiscId.DurationsAt | cddb.c:160-165 | duration i is entry i+1's start seconds minus entry i's |
| DiscId.FillTrack | cddb.c:146-165 | one pass of the offset loop appends the track's `"%d "` piece and stores its offset and duration, leaving the earlier entries alone |
| DiscId.FillOffsets | cddb.c:145-166 | the offset loop fills both arrays and the offsets text |
| DiscId.BuildQueryString | cddb.c:63-178 | stored total = raw seconds + 2; the ID is the `%08x` of the packed hash, raw seconds and track count; N offsets and N durations as above; the query is the query text and fits its 1024-byte buffer |
| DiscId.QueryLength | cddb.c:169-170 | the query always fits the 1024-byte buffer |
| DiscId.QueryWords | cddb.c:169-170 | the query has N + 5 words |
| DiscId.JoinOffsets | cddb.c:152-155 | the offsets text, each offset followed by a blank, is the offset words joined by blanks |
| DiscId.QueryIsJoin | cddb.c:169-170 | with the offsets intact, the query is its words joined by single blanks |
| DiscId.HeadIsJoin | cddb.c:169-170 | `"cddb query <id> <N> "` is its four words joined, then a blank |
| DiscId.QueryWordsHaveNoBlank | cddb.c:169-170 | no word of the query contains a blank |
| DiscId.QueryRoundTrip | cddb.c:100-170 | when the offsets fit the 500-byte buffer (`strncat` cut nothing), splitting the query at blanks gives back the ID, the track count, every frame offset in track order and the total seconds with the lead-in, each as a number |
| DiscId.QueryWordsAt | cddb.c:169-170 | where the ID, the count, each offset and the total sit among the query's words |
| DiscId.QueryWordValues | cddb.c:169-170 | each numeric word of the query reads back as its value |
| DiscId.OffsetWordDigits | cddb.c:152 | offset word i is `%d` of track i's frame offset |
| DiscId.OneTrackFields | cddb.c:100-155 | a disc with one track at 0:02 and its lead-out at 4:35 has hash 2, raw seconds 273 and offsets text `"150 "` |
| DiscId.OneTrackExample | cddb.c:113-170 | that disc's ID is 0x02011101 and its query ends `" 1 150 275"` |
| DiscId.OneTrackIdText | cddb.c:116-117 | `%08x` of 0x02011101 is `"02011101"` |
| Text.Decimal | cddb.c:152 | `%d` of a natural number is a non-empty digit string without leading zeros |
| Text.DecimalRoundTrip | cddb.c:152 | the digits of `%d` read back as the number |
| Text.TwoDigits | cddb.c:1267 | `%02d` gives at least two digits, exactly two below 100 |
| Text.TwoDigitsRoundTrip | cddb.c:1267 | the digits of `%02d` read back as the number |
| Text.HexDigits | cddb.c:116-117 | `%0kx` gives k lower-case hex digits |
| Text.HexRoundTrip | cddb.c:116-117 | k hex digits of a value below 16^k read back as the value |
| Text.Truncate | cddb.c:155 | what a bounded copy keeps is a prefix of at most the room left, and all of the text when it fits |
| Text.LastIndexOf | daex.c:929-930 | `strrchr`: the index of the last occurrence, or none exactly when the character is absent |
| Text.FirstIndexOf | daex.c:188 | `strsep`/`strchr`: the first occurrence, with none before it |
| Text.FirstIndexAfter | daex.c:188 | in `w + c + rest` with no `c` in `w`, the first `c` is at the length of `w` |
| Text.ScanNumber | cddb.c:799 | a `%u` conversion consumes at least one character |
| Text.ScanDecimal | cddb.c:799 | a number printed by `%d` scans back to itself, leaving the rest |
| Text.ScanWord | cddb.c:708 | a `%<width>s` conversion yields 1 to width characters and no white space |
| Text.WordRunOf | cddb.c:708 | a word runs up to the first white space after it |
| Text.ScanWordOf | cddb.c:708 | a word of 1 to width non-space characters after a blank, followed by white space or nothing, is exactly what `%<width>s` reads, and the rest is left |
| Text.SplitJoin | cddb.c:169-170 | splitting blank-joined words without blanks gives the words back |
| LineReader.ReadOnce | cddb.c:209-213 | one `read()` returns -1 to cap bytes; a count >= 0 delivers exactly that many bytes; EINTR consumes the pending event |
| LineReader.Socket.Read | cddb.c:209 | reading from the socket consumes the next read result and fills only the first count bytes of the buffer |
| LineReader.NextCharInOrder | cddb.c:201-222 | `fnReadChar` delivers the bytes in arrival order; it reports EOF or an error only when the stream is empty; it reads from the socket only when its buffer is empty |
| LineReader.RetriesInterruptedRead | cddb.c:208-210 | an EINTR result is retried: the character read is the one after it |
| LineReader.LineReader.ReadChar | cddb.c:183-222 | returns 1 and the next byte, 0 at EOF or -1 on error, exactly as the model of the stream says, keeping the reader's invariant |
| LineReader.LineReader.ReadLine | cddb.c:227-269 | the count returned, the line stored and the state left are those of the line loop |
| LineReader.LineFromFacts | cddb.c:251-268 | the stored line is at most max-1 bytes, holds a newline only as its last byte and is followed by the rest of the stream; the count is its length, plus one unless it ends in a newline |
| LineReader.ReadLineResult | cddb.c:249-268 | `fnReadLine` returns 0 exactly when EOF comes before the first byte, -1 only on a read error, and a positive count exactly when a line is stored |
| LineReader.ReadLineSplitsStream | cddb.c:249-268 | successive lines laid end to end give back the stream |
| LineReader.StepBuffered | cddb.c:251-263 | a buffered byte is stored; a newline ends the line |
| LineReader.FirstOfTwoLines | cddb.c:227-269 | from the chunk `"1\r\n.\r\n"` the first line is `"1\r\n"` with count 3, and `".\r\n"` stays buffered |
| LineReader.SecondOfTwoLines | cddb.c:227-269 | the buffered `".\r\n"` is the next line, read without touching the socket |
| LineReader.TwoLinesExample | cddb.c:227-269 | the two lines together |
| Protocol.Connection.ReadLine | cddb.c:779 | a reply line is consumed in order; EOF once the replies are exhausted |
| Protocol.Connection.Write | cddb.c:667 | a command written is appended to the log |
| Protocol.Connection.Close | cddb.c:595 | closing is counted |
| Protocol.ClassifyTable | cddb.c:814-991 | accepted codes: CONNECTING 200/201, SENT_HELLO 200/402, SENT_QUERY 200, SENT_READ 210 (entry follows). 432/433/434 and 431 give -3; 409 after the query or the read gives -4; every other code gives -2 |
| Protocol.HelloCommand | cddb.c:656-661 | the greeting fits its 256-byte send buffer |
| Protocol.ScanQueryReply | cddb.c:708 | a matched reply yields a category of 1 to 24 characters and an ID of 1 to 8 |
| Protocol.ScanQueryReplyWords | cddb.c:708-722 | the reply "code category id ..." yields exactly its second and third words as the category and ID the read request is built from |
| Protocol.ScanQueryReplySteps | cddb.c:708 | the scan of a query reply is the number, then a word of at most 24, then a word of at most 8 |
| Protocol.NextRequestAdvances | cddb.c:635-748 | each request moves the state exactly one step (CONNECTING→SENT_HELLO→SENT_QUERY→SENT_READ), sending the greeting, the query with CR LF, then `cddb read <cat> <id>`; it fails exactly when the query + 3 exceeds 256, the reply lacks the two tokens, or the read was already sent |
| Protocol.SendRequest | cddb.c:604-749 | writes exactly the request's command and returns the new state, or -1 and writes nothing |
| Protocol.LookupUnfold | cddb.c:779-1013 | the lookup on the next reply is one step of the loop |
| Protocol.StepSkips | cddb.c:799 | a line not starting with a number is skipped |
| Protocol.StepSettles | cddb.c:814-991 | a code that is not accepted ends the lookup with its verdict |
| Protocol.StepSends | cddb.c:995-1001 | an accepted code sends the next request, or ends with -2 when it cannot be sent |
| Protocol.DoCDDBLookup | cddb.c:754-1014 | result, final state, commands written and replies consumed are those of the lookup function; nothing is closed |
| Protocol.LookupLoop | cddb.c:779-1014 | the read loop from any state and known match ends with the lookup function's result, state, match, commands and unread replies; nothing is closed |
| Protocol.LookupPass | cddb.c:779-1003 | one reply read either settles the lookup (nothing sent, result as the lookup function gives it) or sends at most the next request and leaves a strictly shorter input whose lookup completes the whole |
| Protocol.ProgressAfterRequest | cddb.c:995-1001 | sending a request keeps the lookup's forward progress |
| Protocol.ProgressSettled | cddb.c:814-991 | a settling reply keeps the lookup's progress |
| Protocol.LookupProgress | cddb.c:779-1013 | the lookup only moves forward, sending exactly the commands of the states passed, in order; it succeeds only after the read was sent; its result is one of 0, -2, -3, -4 |
| Protocol.LineProgress | cddb.c:791-1001 | the same from a complete reply line on |
| Protocol.LookupSuccess | cddb.c:635-945 | a successful lookup from CONNECTING has sent exactly the greeting, the query with CR LF and the read of the matched category and ID |
| Protocol.SkipsUnnumberedLine | cddb.c:799 | a reply that does not start with a number leaves the lookup as if it had not come |
| Entry.TitleRun | cddb.c:339 | the leading run stops at the first CR or LF |
| Entry.ScanTitle | cddb.c:339 | `%79[^\r\n]` matches exactly when the text does not start with CR/LF or end, giving 1 to 79 characters without CR/LF |
| Entry.DiscTitleOf | cddb.c:339 | a DTITLE line gives a non-empty title |
| Entry.TrackTitleOf | cddb.c:388 | a TTITLE line gives a title of at most 79 characters; the track number is scanned but not used |
| Entry.Ending | cddb.c:317-327 | the first reply that ends the entry: the `.\r\n` marker, EOF or a read error |
| Entry.EntryStep | cddb.c:339-437 | a reply that does not end the entry adds its title and updates the disc title |
| Entry.ReferenceStep | cddb.c:339-437 | the reference description takes the same step |
| Entry.TitlesCons | cddb.c:388-437 | the titles of the first reply, then the rest |
| Entry.LastDiscCons | cddb.c:339-380 | the disc title of the first reply, then the rest |
| Entry.EntryOutcome | cddb.c:317-467 | for all replies: more TTITLEs than tracks before the end gives -1 with the first N titles; otherwise all the titles in arrival order, the last non-empty DTITLE, and -2 at the marker after fewer than N titles, 0 after N, -2 on a read error, -3 at EOF |
| Entry.EntrySucceeds | cddb.c:317-467 | success exactly when the marker arrives after exactly N titles |
| Entry.EntryWithoutDiscTitle | cddb.c:317-467 | an entry with N titles and no DTITLE line succeeds with the disc title unset (Findings) |
| Entry.NoDiscTitle | cddb.c:339 | without DTITLE lines no disc title is recorded |
| Entry.TitlesAreClean | cddb.c:388 | every title read is at most 79 characters and holds no CR or LF |
| Entry.Slots | cddb.c:405-437 | N slots: slot i holds title i for each title read, the rest empty |
| Entry.ReadEntry | cddb.c:274-467 | result code, disc title and slots are those of the entry description; nothing is written |
| Session.NegotiationOutcome | cddb.c:1053-1119 | at most 6 lookups; -4 ends the session only on the sixth; "quit" is suppressed exactly when the last lookup or the entry reader gave -3; the entry is read only after a successful lookup; success exactly when the entry succeeded, with all N titles; result 0 or -1 |
| Session.RenegotiatesOnlyOnNoHandshake | cddb.c:1077-1088 | another lookup happens only after -4 while the counter allows it |
| Session.SessionSends | cddb.c:1053-1119 | a successful session's last three commands are the greeting, the query and the read of the matched entry |
| Session.NegotiateRetries | cddb.c:1077-1088 | on -4 with the counter at most 5, the session is the commands of that lookup, then the next lookup |
| Session.NegotiateFails | cddb.c:1068-1092 | a lookup that fails for good gives -1, with "quit" exactly when it was not -3 |
| Session.NegotiateReads | cddb.c:1104-1119 | after a successful lookup, the entry decides: -1 on failure, "quit" unless it gave -3 |
| Session.LookupAttempt | cddb.c:1053-1092 | one lookup of the loop, at a given counter value, and what it decides |
| Session.NegotiateLookups | cddb.c:1049-1093 | the loop of lookups; when one succeeds, the reply to the read is left on the connection |
| Session.SessionWrapper | cddb.c:1019-1120 | result, quit flag, disc title, title slots, commands sent and replies consumed are those of the session function; nothing is closed |
| Session.SlotTitles | cddb.c:1262 | a filled slot gives its title |
| Session.DoCDDBQuery | cddb.c:1516-1573 | no connection gives -1 and changes nothing; otherwise the session runs, "quit" is sent when allowed, the socket is closed exactly once, and unless file names are skipped the names are stored, -1 when the disc title is missing or a name is too long |
| Filenames.ConvertStepWell | cddb.c:1157-1190 | each character keeps the "previously modified" flag exact, adds at most one character, and never writes two replacements in a row |
| Filenames.ConvertState | cddb.c:1157-1191 | the converted state is always well-formed |
| Filenames.ConvertTitleToFilename | cddb.c:1125-1225 | the write-index loop produces the converted name |
| Filenames.ConvertChar | cddb.c:1163-1190 | one pass: a `/` in a disc title overwrites a replacement just written with `-`; another disallowed character writes `_` once; a kept one is copied |
| Filenames.Put | cddb.c:1166 | writing at the index keeps what is before it |
| Filenames.SanitizeShape | cddb.c:1157-1221 | the name is never longer than the title, holds only `[0-9A-Za-z(),.]`, `_` and (disc titles only) `-`, and never two replacements in a row |
| Filenames.SanitizeKeepsCleanTitle | cddb.c:1184-1189 | a title of kept characters is its own file name |
| Filenames.TrackConversionIdempotent | cddb.c:1157-1221 | converting a track title's file name again changes nothing |
| Filenames.ConvertStateSnoc | cddb.c:1157-1191 | converting one more character is one more step |
| Filenames.AppendKept | cddb.c:1184-1189 | kept characters are appended and clear the flag |
| Filenames.KeptStep | cddb.c:1184-1189 | a kept character is appended and clears the flag |
| Filenames.SeparatorConverted | cddb.c:1163-1182 | "artist/album" of kept characters becomes "artist-album", and "artist-album" becomes "artist_album" |
| Filenames.SpacedSlashBecomesDash | cddb.c:1163-1182 | "artist / album" becomes "artist-album": the slash overwrites the underscore of the blank before it |
| Filenames.DiscConversionNotIdempotent | cddb.c:1157-1221 | a disc title's conversion is not idempotent: "a/b" becomes "a-b", then "a_b" |
| Filenames.FileNames | cddb.c:1260-1268 | one name per track, `<disc>-<NN>-<track>.wav` of the converted titles |
| Filenames.FirstLongFrom | cddb.c:1267-1270 | the first name over 255 characters from a position on |
| Filenames.FirstTooLong | cddb.c:1260-1270 | the first track whose name exceeds 255 characters, all before it within the limit |
| Filenames.Renamed | cddb.c:1273-1280 | the first m tracks renamed, the rest unchanged |
| Filenames.RenameOneMore | cddb.c:1273-1280 | renaming one more track |
| Filenames.StoreFilenames | cddb.c:1230-1287 | a missing disc title gives -1 and changes nothing; otherwise the tracks before the first over-long name get their names, -1 if there is one and 0 if not |
| Filenames.ParseComposeName | cddb.c:1267-1268 | a composed name reads back as disc part, track number and track part |
| Filenames.TrackNameHasNoDash | cddb.c:1170-1182 | a track title's file name holds no dash |
| Filenames.TrackFilenamesDiffer | cddb.c:1267-1268 | two different tracks of a disc with fewer than 100 tracks get different names |
| Filenames.LastDashIsBeforeTrack | cddb.c:1267 | the last dash of a composed name precedes the track part |
| Report.SplitDiscTitle | cddb.c:1429-1462 | the artist holds no slash; a title without a slash gives the album `-` |
| Report.SplitRoundTrip | cddb.c:1429-1462 | "artist / album" splits back into its artist and album |
| Report.ArtistOnly | cddb.c:1444-1459 | a title without a slash names the artist only, with album `-` |
| Report.EmptyAlbum | cddb.c:1444-1448 | `artist/` gives an empty album, `artist/ ` gives `-` |
| Wav.Initial | daex.c:575-595 | the initial header: tags RIFF/WAVE/`fmt `/data, format length 16, PCM 1, 2 channels, 44100 Hz, 16 bits, block align 4, 176400 bytes per second, both lengths 0 |
| Wav.WavHeader.SetupWAVEheader | daex.c:549-609 | two zero arguments initialise every field; otherwise only the RIFF length (total - 8, as an unsigned long) and the data length change |
| Wav.WavHeader.Initialise | daex.c:575-595 | every field set to the initial header |
| Wav.FinaliseKeepsFormat | daex.c:597-606 | finalising changes only the two length fields |
| Wav.SetupKeepsCdAudio | daex.c:549-609 | a CD audio header stays one through every setup |
| Wav.FileLengthRecovered | daex.c:604 | the RIFF length plus 8 is the total when the total is at least 8; below 8 it wraps |
| Wav.FinaliseIdempotent | daex.c:597-606 | finalising twice with the same lengths is finalising once |
| Extract.Drive.ReadCdda | daex.c:740 | a read consumes one outcome; reads past the script fail |
| Extract.FirstSuccess | daex.c:740-754 | the first successful read, with all before it failed |
| Extract.ReadBlockOutcome | daex.c:734-769 | a block is read exactly when one of the 10 allowed reads succeeds, after as many requests as it took; otherwise it is lost after 11 requests |
| Extract.ExtraReadIgnored | daex.c:740-769 | after 10 failures, the block is lost even when the 11th read, issued by the loop test, succeeds |
| Extract.ReadBlockRetrying | daex.c:734-769 | the retry loop's result and the reads it consumed are those of the block function |
| Extract.ExtractionLength | daex.c:730-823 | a complete extraction reads every address from start to end inclusive; an incomplete one stops short |
| Extract.ExtractStep | daex.c:730-823 | one block read, then the rest of the track |
| Extract.Addresses | daex.c:730 | the addresses start, start+1, … in order |
| Extract.AudioBytes | daex.c:784 | the running total stays below 2^32 |
| Extract.AudioBytesValue | daex.c:784 | the running total is 2352 bytes per block, modulo 2^32 |
| Extract.HeaderAfterBlocks | daex.c:784-836 | after k blocks of a file below 4 GB the header is still CD audio, its data length is 2352 × k and its RIFF length that plus the header size, less 8 |
| Extract.CompleteTrackHeader | daex.c:724-836 | after a complete extraction whose file stays below 4 GB, the header is CD audio, its data length is 2352 × (end − start + 1) and its RIFF length is that plus the header size, less 8 |
| Extract.RemainingAtEnd | daex.c:730 | past the last address, the extraction is complete |
| Extract.CopyBlock | daex.c:731-784 | one block with its retries keeps the loop's account of what remains, or ends the extraction |
| Extract.AddBlockBytes | daex.c:784 | the unsigned-long total advances by one block |
| Extract.CopyBlocks | daex.c:730-823 | the block loop's result, the addresses written in order, the total and the reads consumed are those of the extraction |
| Extract.ExtractAudio | daex.c:664-846 | the header is initialised; a lost block gives -2 with the header left initial; otherwise the header is finalised with the total and the header size, and 0 is returned |
| DiscInfo.SetSpeed | daex.c:485-532 | the speeds 0, 1, 2, 3, 4, 8 and 16 are set, exactly; any other leaves the drive alone with the description "Default" |
| DiscInfo.SpeedsAreMultiples | daex.c:492-527 | speed n asks for between 176n and 180n kbytes a second |
| DiscInfo.SpeedsAreNamed | daex.c:492-527 | each speed's description starts with `"<n>x"` |
| DiscInfo.DigitSpeedNamed | daex.c:492-521 | the same for single-digit speeds |
| DiscInfo.SixteenNamed | daex.c:522-527 | the same for 16 |
| DiscInfo.RangeReachesNextTrack | daex.c:1126-1134 | before an audio track, a range ends at the next track's first block |
| DiscInfo.RangeStopsBeforeData | daex.c:1142-1145 | before a data track that is not the last, a range stops 11250 blocks short of it |
| DiscInfo.GenericNameRoundTrip | daex.c:1105 | `track-NN.wav` reads back as the track number |
| DiscInfo.TrackTable | daex.c:1089-1146 | one record per track |
| DiscInfo.TrackTableAt | daex.c:1089-1146 | record i is track i+1's number, name and block range |
| DiscInfo.TrackRecordOf | daex.c:1092-1145 | one pass of the loop builds the track's record |
| DiscInfo.FillTrackInformation | daex.c:1089-1146 | the loop fills a fresh table with every track's record |
| DiscInfo.GenericNamesStored | daex.c:1100-1121 | generic names are stored for every track exactly when CDDB is not queried or an information file is asked for |
| DiscInfo.OutputSlotUnchecked | daex.c:1168-1174 | a track number outside the table (or -1 when none is given) puts the `-o` name outside the table (Findings) |
| DiscInfo.ApplyOutputName | daex.c:1168-1174 | only the chosen track's name is replaced; track 0, no name or a track outside the table leave the table alone |
| Process.Directory.Open | daex.c:912-916 | an existing name gives EEXIST; otherwise the file is created, or creation fails |
| Process.Place | daex.c:909-966 | a placed file has a name that did not exist; a refusal is -1 or -2 |
| Process.DecimalUpToTen | daex.c:943-945 | counts up to 10 print in at most two digits, without a period |
| Process.LastPeriodOfAlternative | daex.c:929-930 | the last period of `name.k` is the one before k |
| Process.LastIndexOfAfter | daex.c:929-930 | the last occurrence of a character in a string |
| Process.NextAlternative | daex.c:928-945 | each collision moves from `name.k` to `name.(k+1)` |
| Process.PlaceFromAlternative | daex.c:909-960 | from `name.k` on, the loop settles on the first alternative that does not exist: the file is created under it, or -2 when it cannot be created; -2 when `name.10` exists too |
| Process.PlaceOutcome | daex.c:885-966 | the file is created under the first of the name, `name.1` … `name.10` that does not exist (-2 when that one cannot be created); -2 when all eleven exist |
| Process.OpenOutput | daex.c:909-967 | the naming loop creates exactly the placed name and stores each alternative in the track's record |
| Process.ProcessTrack | daex.c:851-983 | -1 for a track outside the disc, -2 for a data track, both with nothing touched; otherwise the naming loop (the refused names unchanged), then the extraction of the track's block range, leaving the WAVE header finalised for the blocks read, or initial when the extraction failed |
| Arguments.ParseServer | daex.c:180-205 | too long exactly when over 1024 characters; no port exactly when there is no colon; a server's host has no colon and its port is in 1..65535 and is the atoi of the text after the first colon |
| Arguments.ParseServerRoundTrip | daex.c:184-205 | `host:port` with a colon-free host and a port in range reads back as host and port |
| Arguments.FirstColonSplits | daex.c:187-199 | the first colon splits: everything after it, further colons included, is the port text |

## Left out

- Sockets and DNS are not modelled: `fnCDDB_DoDNSlookup`, `fnCDDB_ConnectToServer` and the `write`/`close` system calls. The connection is a `Connection` object, and a failed connect is a flag.
- The login and host names (`getlogin`, `gethostname`) are parameters.
- No allocation failure is modelled: every `malloc`/`calloc`/`realloc`/`strdup` failure path, the shrink-and-regrow of titles, `fnCDDB_FreeCDDBInformationStruct` and `fnDispose`. On such a failure the C returns -1 or NULL, or exits through `fnError` (the `strdup` calls of `fnSetSpeed` and the block buffer of `fnExtractAudio`).
- Hardware is not modelled: the TOC ioctls (`fnReadTOCheader`, `fnReadTOCentries`), `CDIOSETSPEED`, and the device open. The raw read is a script of outcomes in which reads past the end fail. Only the kbytes value and description that `fnSetSpeed` chooses are modelled.
- File output is not modelled. The `open`, `lseek`, `write` and `close` of the WAVE file, and the failing-write exits, are left out. The on-disk header size (`sizeof(struct WavFormat_t)`) is a parameter, as it depends on the width of `u_long`.
- The percent-complete display (floating point), all console output, `fnUsage`, `fnError`, and the file writing and `ctime` of `fnCDDB_DumpCDDBInfo` are left out. Only its artist/album split is modelled.
- Privilege handling (`fnSetPrivileges`), `fnSanitizeArguments`, the options other than `-c`, and the sequencing inside `main` and `fnDiscInformation` (including the loop over all tracks for `-t 0`) are not part of this model.
- `u_long` is taken to be 32 bits wide, the width of the WAVE length fields. `int` overflow is not modelled: the hash shift, `atoi` on huge numbers, the `%u` scans of the response code and of the `TTITLE` number (which wrap modulo 2^32 in C, so `4294967496 x` is code 200 there) and the frame arithmetic are computed on unbounded integers.
- DiscId.BuildQueryString: it requires fewer than 256 tracks, every address field a byte, and a playing time below 2^16 seconds. These are the ranges in which the C shifts and `snprintf` behave as written.
- One Dafny `char` stands for one C byte. The 79-character title cut, the 255-character file name limit, the 1024-character `-c` limit and the line reader's buffer are byte counts in C; no character encoding is modelled.
- Reply text is taken to hold no NUL byte. The C string functions (`strchr` for the newline, the `sscanf` title scans, `strlen` on titles) stop at the first NUL, while the model treats `'\0'` as an ordinary character. For example, the reply `"x\0\n"` is a complete, unnumbered line to the model but a line without a newline (-2) to the C.
- Entry.ReadEntry and the lookup consume whole reply lines as `fnReadLine` returns them. The byte-level reader is modelled separately, and the two are not composed.
- DiscInfo.FillTrackInformation: it assumes the first track is number 1, as on every audio CD, and leaves out the `snprintf` length check on `track-NN.wav`, which cannot fail for a byte-sized track number.
- Process.ProcessTrack: it takes the disc's tracks to be numbered from 1. `fnProcessTrack` checks against the TOC header's starting track.
- Process.Place: the alternative names are cut to the 255 characters the 256-byte buffer keeps, but `PlaceOutcome` speaks only of names short enough for every suffix.
- Process.Directory.Open: the file system is a set of existing names and a set of names that cannot be created. Permissions and other errors are not modelled separately.

## Findings

| source | as written | input that shows it | evidently intended | confidence | as-written member | corrected member |
|---|---|---|---|---|---|---|
| cddb.c:317-467, cddb.c:1255-1256 | `fnCDDB_ReadEntry` succeeds on an entry with no `DTITLE` line, leaving `szDiscTitle` NULL. `fnCDDB_StoreFilenames` then passes it to `fnCDDB_ConvertTitleToFilename`, whose `strlen` reads a NULL pointer | for a one-track disc, the reply lines `TTITLE0=Song\r\n` and `.\r\n` after `210` | a missing disc title is refused (-1) before any name is built | not executed | Entry.EntryWithoutDiscTitle | Filenames.StoreFilenames |
| daex.c:1168-1174 | the `-o` name is stored at `pstTrackInformation[iTrackNumber - 1]` before the track number is checked against the disc. `fnProcessTrack` rejects it only later | `-t 99 -o x.wav` on a 10-track disc; or `-c host:port -i info -o x.wav` without `-t`, where the track number stays -1 and slot -2 is written | the name is stored only for a track in the table | not executed | DiscInfo.OutputSlotUnchecked | DiscInfo.ApplyOutputName |
