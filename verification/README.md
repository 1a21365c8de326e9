# RK3588 camera controller: verified model

This project models the logic of the camera controller in Dafny 4.11 and proves what it promises. Each module follows
one source component. Methods with loops and classes with fields follow the code step by step and are proved equal to
specification functions; the lemmas then say what those functions mean, over every input, every chunking of a stream,
every interleaving of threads and every answer of the hardware.

Seven parts are covered:

- **RTP/JPEG streaming** (`JpegParser`, `RtpJpeg`, `RtpReceiver`): the JPEG marker parser, which accepts exactly the
  images of a grammar, the fragmenter that writes RTP packets in interleaved frames, and a receiver written from RFC
  2326 section 10.12 and RFC 2435 sections 3.1 and 4.3 that knows nothing of the sender. What one session puts on the
  socket is received image by image.
- **Configuration text** (`SimpleYaml`, `YamlTree`, `ConfigManager`, `ConfigPrinter`, `ConfigValues`,
  `ConfigMeaning`, `ProtocolConfig`, `ProtocolReading`): the indentation-stack parser is proved to flatten trees, against
  a lookup that walks the tree; on top of that, every file gives just what its tree means, with the default for whatever
  it leaves out, and loading what was saved gives the same configuration back *if and only if* a condition on the
  configuration holds.
- **Shell commands** (`ShellQuote`): a reader for sections 2.2 and 2.3 of the POSIX Shell Command Language undoes the
  quoter.
- **Queues** (`BlockingQueue`, `FrameSync`, `MainStream`): each method under the lock is one atomic step; sleeping,
  notified and spurious wake-ups are steps of their own. Invariants hold for every interleaving.
- **Modes and pipeline** (`ModePlanning`, `ModeManager`, `ModeRuns`, `MediaPipeline`): every call into hardware may
  fail in any way.
- **Sensor protocol** (`SerialProtocol`, `SensorCommands`, `HexText`, `SensorController`): checksums, frames,
  acknowledgements, exact reads and retries against an arbitrary serial port.
- **Stream splitting** (`StreamSplit`): Annex B and program-stream splitting and RTP packetising.

`Foundation`, `Bytes` and `Text` hold what all share. Bytes, 16-bit and 32-bit numbers are integers with their range,
and every wrap-around of the source at those widths is written out.

Where the code is not what one would expect, the model keeps the code and a lemma says exactly when it is:

- A configuration with `#` or a line break in a text, a port 0, or an upper-case transport is saved but not loaded
  back (`ProtocolConfig.Gb28181RoundTrip` and its three siblings, `ProtocolConfig.PortZeroIsLost`).
- `MainStream::init` does not notify, so a reader that sleeps while another thread calls it is left asleep
  (`MainStream.RunWakes` says when, `MainStream.InitLosesWakeup` gives a run).
- The executor registers the fusion algorithms only right after it has initialised the engine itself. An engine handed
  over initialised and without them is never completed, and its fusion modes fail for good (`ModeRuns.LackIsPermanent`,
  `ModeRuns.SwitchSucceedsIff`, `ModeRuns.EmptyEngineNeverFuses`).
- `MediaPipeline::start` sets the running state after it has started the worker. The error state then tells of all hard
  errors if and only if there was none before or there is one after (`MediaPipeline.StartHidesEarlyErrors`;
  `MediaPipeline.EarlyErrorIsHidden` shows that there can be one before).
- A second `init` of a pipeline keeps the nodes of the first; it has the nodes of its configuration if and only if that
  asks for all of them (`MediaPipeline.InitBuildsIff`).
- Packets after the first carry quality 75 while the first carries 128 (`RtpReceiver.QualityUniform`); offsets and
  sizes are cut to their fields (`RtpReceiver.ReassemblyExact`, `RtpReceiver.SizeFieldsExact`).
- A flag of the `protocol` section in quotes is not read as a flag, unlike those of the protocol files
  (`ConfigManager.SectionMeans`, `ConfigMeaning.ToBoolMeans`).
- A separator inside a `0x` prefix of a hex command makes it invalid (`HexText.InsertSeparator`).

## Model

| member | source | states |
|---|---|---|
| JpegParser.ParseJpegForRtp | src/protocol/rtsp/RtspServer.cpp:513-655 | the nested loops over the array compute the specification parser on its contents, end on every input and read only in bounds |
| JpegParser.SegmentInPlace | src/protocol/rtsp/RtspServer.cpp:556-640 | one marker segment read in place has the effect of the specification step: refused, end of scan, or next position |
| JpegParser.ReadSegmentInPlace | src/protocol/rtsp/RtspServer.cpp:570-622 | the DQT and SOF0 branches accept exactly what the specification accepts and fill the same fields |
| JpegParser.ReadTablesLoop | src/protocol/rtsp/RtspServer.cpp:572-592 | the table loop appends the 64 elements of every 8-bit table and refuses 16-bit or cut tables |
| JpegParser.FindEoiLoop | src/protocol/rtsp/RtspServer.cpp:628-635 | the search finds the first end-of-image marker at or after the scan start, or the end of the data |
| JpegParser.FindEoi | src/protocol/rtsp/RtspServer.cpp:628-635 | the position found is an end-of-image marker or the end, and no marker lies before it |
| JpegParser.ParseInBounds | src/protocol/rtsp/RtspServer.cpp:643-654 | on every byte string an accepted image has a nonempty scan inside the data up to the first end-of-image marker, tables in whole multiples of 64 bytes and a nonzero size |
| JpegParser.TablesAreWhole | src/protocol/rtsp/RtspServer.cpp:572-592 | an accepted quantisation segment is n tables of 65 bytes and yields 64 n elements |
| JpegParser.ParseLayout | src/protocol/rtsp/RtspServer.cpp:513-655 | an image laid out as SOI, segments with fill bytes and stray bytes between them, SOS, scan without FF D9, and EOI with anything after it or nothing more, is accepted exactly if long enough, with a scan and a nonzero size, and yields exactly its scan range |
| JpegParser.ParsedImage | src/protocol/rtsp/RtspServer.cpp:513-655 | every byte string that is accepted is such a laid-out image: 16-bit, cut or empty tables, bad lengths, other precisions and missing scans never are |
| JpegParser.ParseExact | src/protocol/rtsp/RtspServer.cpp:513-655 | the parser accepts exactly the laid-out images with a scan and a size, and returns their scan range, tables, last size and sampling |
| JpegParser.DescribedTables | src/protocol/rtsp/RtspServer.cpp:588-591 | the tables found are those of all quantisation segments, in order |
| JpegParser.SizeOfLastFrameHeader | src/protocol/rtsp/RtspServer.cpp:596-607 | the size is that of the last baseline frame header |
| JpegParser.SizeWithoutFrameHeader | src/protocol/rtsp/RtspServer.cpp:596-607 | without a baseline frame header the size stays what the record held before |
| RtpJpeg.WriteBe16 | src/protocol/rtsp/RtspServer.cpp:502-505 | writes the big-endian bytes at the given place of the buffer and touches nothing else |
| RtpJpeg.WriteBe24 | src/protocol/rtsp/RtspServer.cpp:507-511 | writes the low 24 bits in big-endian order and touches nothing else |
| RtpJpeg.WriteBe32 | src/protocol/rtsp/RtspServer.cpp:657-662 | writes the big-endian bytes at the given place of the buffer and touches nothing else |
| RtpJpeg.BuildPacket | src/protocol/rtsp/RtspServer.cpp:435-481 | the buffer filled in place is the specification packet: RTP header, JPEG header, tables in the first packet, scan bytes |
| RtpJpeg.Connection.SendAll | src/protocol/rtsp/RtspServer.cpp:247-260 | however the system cuts the data up, all of it is sent, or the peer has a prefix and the connection is broken |
| RtpJpeg.SendPacket | src/protocol/rtsp/RtspServer.cpp:483-493 | one packet goes out behind its interleaving header, or a prefix of that |
| RtpJpeg.SendFrame | src/protocol/rtsp/RtspServer.cpp:428-500 | the fragment loop sends exactly the packets of the frame and advances the sequence number by their count; tables too large for a packet send nothing at all |
| RtpJpeg.SendMjpegRtpFrame | src/protocol/rtsp/RtspServer.cpp:418-500 | a frame that is no usable JPEG is skipped without an error and without a byte sent; every other frame is sent as by SendFrame |
| RtpJpeg.FrameOfParsed | src/protocol/rtsp/RtspServer.cpp:422-426 | a frame is sent for exactly the images the parser accepts, and its scan is not empty |
| RtpJpeg.TimestampTicks | src/protocol/rtsp/RtspServer.cpp:60-65 | 90 ticks a millisecond modulo 2^32 as long as the 64-bit product fits, and 0 for negative times |
| RtpJpeg.TablesLimit | src/protocol/rtsp/RtspServer.cpp:435-449 | the first packet has room for scan bytes behind up to 1375 bytes of tables, and not behind more |
| RtpJpeg.StreamMjpegOverTcp | src/protocol/rtsp/RtspServer.cpp:396-416 | over a whole session the socket carries the packets of all delivered frames in order, or a prefix of them after a failure |
| RtpReceiver.DeframeWire | src/protocol/rtsp/RtspServer.cpp:483-493 | splitting the byte stream by section 10.12 of RFC 2326 gives back exactly the packets sent |
| RtpReceiver.PacketDecodes | src/protocol/rtsp/RtspServer.cpp:440-481 | every packet is at most 1400 bytes, every one but the last just that, and decodes by section 3.1 of RFC 2435 to its offset, fields, tables and scan bytes |
| RtpReceiver.SentShape | src/protocol/rtsp/RtspServer.cpp:432-497 | consecutive sequence numbers modulo 2^16, marker on the last packet only, tables in the first only, offsets that tile the scan |
| RtpReceiver.ReassemblyExact | src/protocol/rtsp/RtspServer.cpp:432-497 | in any arrival order and with any duplicates, reassembly by offset gives exactly the scan if and only if the last offset is below 2^24 |
| RtpReceiver.QualityUniform | src/protocol/rtsp/RtspServer.cpp:466 | the quality field is equal in all packets if and only if there are no tables or only one packet |
| RtpReceiver.SizeFieldsExact | src/protocol/rtsp/RtspServer.cpp:467-468 | the size fields give the size back if and only if both dimensions are multiples of 8 below 2048 |
| RtpReceiver.GroupSent | src/protocol/rtsp/RtspServer.cpp:449-456 | a receiver that groups packets up to a marker gets the packets of one frame as one group |
| RtpReceiver.SessionNumbers | src/protocol/rtsp/RtspServer.cpp:397-457 | sequence numbers run on without a gap across the frames of a session |
| RtpReceiver.SessionReceived | src/protocol/rtsp/RtspServer.cpp:396-416 | from the bytes of a whole session the receiver gets exactly one group for each frame, in order |
| RtpReceiver.FrameDelivered | src/protocol/rtsp/RtspServer.cpp:396-500 | end to end, the i-th group rebuilds the scan, tables, type, size fields and timestamp of the i-th frame |
| RtpReceiver.ImageFrame | src/protocol/rtsp/RtspServer.cpp:422-432 | for a laid-out image the frame sent holds exactly its scan, its table elements, the size and sampling of its frame header and its time in ticks |
| RtpReceiver.SessionSelects | src/protocol/rtsp/RtspServer.cpp:396-426 | a session sends the frames of exactly the waits that gave an accepted image, in order, up to the first whose tables are too large |
| RtpReceiver.ImageDelivered | src/protocol/rtsp/RtspServer.cpp:396-500 | from the images a stream gives to the player: for every accepted image of a session one group rebuilds its scan, tables, sampling, size fields and time |
| SimpleYaml.ParseLine | src/foundation/config/ConfigManager.cpp:151-175 | one line of text, with the loops for indentation, closed levels and prefix, changes stack, map and list index as the specification step does |
| SimpleYaml.ParseSimpleYaml | src/foundation/config/ConfigManager.cpp:142-177 | the line loop computes the specification fold over all lines |
| SimpleYaml.FoldKeepsNested | src/foundation/config/ConfigManager.cpp:154-170 | the indentations on the stack are strictly increasing after any text |
| SimpleYaml.OnlyTokensMatter | src/foundation/config/ConfigManager.cpp:151-155 | blank lines, comments and trailing blanks anywhere make no difference to the result, also between the items of a list |
| SimpleYaml.PlainLine | src/foundation/config/ConfigManager.cpp:151-175 | a line with neither colon nor dash stores nothing, ends a list, and closes exactly the levels that are not further out |
| SimpleYaml.OutsideItem | src/foundation/config/ConfigManager.cpp:155-163 | an item outside every level is stored under a dot and its number |
| YamlTree.TreeFlattened | src/foundation/config/ConfigManager.cpp:150-175 | the lines of a properly indented tree, with any indentation of each line that keeps the nesting and any blanks around colons and behind dashes, under any open levels, store its entries in order and leave those levels open |
| YamlTree.JoinInjective | src/foundation/config/ConfigManager.cpp:157-158 | paths of segments without dots are told apart by their dotted form |
| YamlTree.ParsedTree | src/foundation/config/ConfigManager.cpp:142-177 | a dotted path is in the result if and only if walking the tree finds something there, and then holds just that; lists have the keys 0, 1, 2, ... |
| YamlTree.ParsedKeyIsPath | src/foundation/config/ConfigManager.cpp:142-177 | every key of the result is the dotted path of something in the tree |
| ConfigManager.LoadPriority | src/foundation/config/ConfigManager.cpp:131-138 | the unbounded loop ends and yields the items up to the first missing index, or the default when there is none |
| ConfigManager.AtMostAllKeys | src/foundation/config/ConfigManager.cpp:132-137 | a finite map holds the printed index of only finitely many items, because printing numbers is injective |
| ConfigManager.LoadProtocol | src/foundation/config/ConfigManager.cpp:125-140 | the protocol section is read from the parsed text, with the items up to the first gap or the three default protocols |
| ConfigManager.SectionMeans | src/foundation/config/ConfigManager.cpp:125-140 | for every file that spells a tree, the single values mean what the tree says at their paths, or the default where nothing is there; flags are read without taking off quotes |
| ConfigManager.ListRebuilt | src/foundation/config/ConfigManager.cpp:131-137 | a list spelled under protocol / priority comes back unquoted and in order, however its lines are indented and with comments and blank lines between items |
| ConfigPrinter.PartLayout | src/protocol/ProtocolConfigLoader.cpp:244-328 | single values are written two blanks in, the values of a group four, with a blank line between parts where asked for |
| ConfigPrinter.PrintedSpells | src/protocol/ProtocolConfigLoader.cpp:244-328 | what the writers print is, to the parser, the tree of its root, groups and values |
| ConfigPrinter.PrintedIsStored | src/protocol/ProtocolConfigLoader.cpp:244-328 | after printing and parsing, every printed value is found under its dotted path |
| ConfigPrinter.ParsedValuesClean | src/foundation/config/ConfigManager.cpp:150-153 | no text at all parses to a value that holds a comment sign or a line break |
| ConfigValues.QuoteReadsBack | src/foundation/utils/StringUtils.h:29-35 | unquoting a quoted text gives it back, whatever quotes and blanks it holds |
| ConfigValues.StoiReadsBack | src/protocol/ProtocolConfigLoader.cpp:31-35 | a printed 32-bit integer is read back, the most negative one included |
| ConfigValues.ReadsPort | src/protocol/ProtocolConfigLoader.cpp:49-53 | every printed port is read back except 0, which gives the default |
| ConfigValues.ReadsBool | src/protocol/ProtocolConfigLoader.cpp:42-47 | a printed flag is read back whatever the default |
| ConfigValues.GetClean | src/protocol/ProtocolConfigLoader.cpp:26-29 | the text getter never returns a comment sign or a line break |
| ConfigMeaning.SaysUnquoted | src/foundation/utils/StringUtils.h:29-35 | a value is read as a text exactly if it is that text in double or single quotes, or that text bare |
| ConfigMeaning.StoiIsNumber | src/protocol/ProtocolConfigLoader.cpp:31-35 | a text is read as a number exactly if it is blanks, a sign or none, digits and anything, and the number has 32 bits |
| ConfigMeaning.GetMeans | src/protocol/ProtocolConfigLoader.cpp:26-29 | the text getter gives what the value says, or the fallback exactly where there is none |
| ConfigMeaning.ToIntMeans | src/protocol/ProtocolConfigLoader.cpp:31-35 | the number getter gives the number the value says, or the fallback where there is none or it says no number of 32 bits |
| ConfigMeaning.ToPortMeans | src/protocol/ProtocolConfigLoader.cpp:49-53 | the port getter gives a number from 1 to 65535, or the fallback for anything else |
| ConfigMeaning.ToBoolMeans | src/protocol/ProtocolConfigLoader.cpp:42-47 | the flag getter knows four words for yes and four for no in any case of letters, and gives the fallback for anything else |
| ConfigMeaning.LowerMeans | src/protocol/ProtocolConfigLoader.cpp:37-40 | lowering a text changes its capitals and nothing else |
| ConfigMeaning.ParsedHolds | src/foundation/config/ConfigManager.cpp:142-177 | the parsed map holds under a dotless path just what a walk of the tree finds there |
| ProtocolConfig.LoadGb28181 | src/protocol/ProtocolConfigLoader.cpp:105-142 | loads the optional file through the typed getters, lowers the transport and validates |
| ProtocolConfig.LoadOnvif | src/protocol/ProtocolConfigLoader.cpp:144-161 | loads the optional file through the typed getters and validates |
| ProtocolConfig.LoadPrivateApi | src/protocol/ProtocolConfigLoader.cpp:163-177 | loads the optional file through the typed getters and validates |
| ProtocolConfig.LoadRtsp | src/protocol/ProtocolConfigLoader.cpp:179-195 | loads the optional file through the typed getters and validates |
| ProtocolConfig.Gb28181RoundTrip | src/protocol/ProtocolConfigLoader.cpp:105-278 | for every configuration that can be saved, loading the saved text gives it back if and only if no text has `#` or a line break, no port is 0 and the transport is lower case |
| ProtocolConfig.OnvifRoundTrip | src/protocol/ProtocolConfigLoader.cpp:144-297 | the same for ONVIF, with its texts and two ports |
| ProtocolConfig.PrivateApiRoundTrip | src/protocol/ProtocolConfigLoader.cpp:163-312 | the same for the private interface, with its texts and port |
| ProtocolConfig.RtspRoundTrip | src/protocol/ProtocolConfigLoader.cpp:179-328 | the same for RTSP, with its texts and port |
| ProtocolConfig.Gb28181FromRepresentable | src/protocol/ProtocolConfigLoader.cpp:105-142 | whatever the file holds, the loaded record satisfies that condition |
| ProtocolConfig.PortZeroIsLost | src/protocol/ProtocolConfigLoader.cpp:135-274 | the enabled default settings with RTP port 0 are valid and saved, and do not load back |
| ProtocolReading.Gb28181Loaded | src/protocol/ProtocolConfigLoader.cpp:105-142 | for every file that spells a tree: a record is loaded if and only if each field is what the tree says at its path, or the default where nothing is there, and the record is accepted; otherwise a configuration error |
| ProtocolReading.OnvifLoaded | src/protocol/ProtocolConfigLoader.cpp:144-161 | the same for ONVIF |
| ProtocolReading.PrivateApiLoaded | src/protocol/ProtocolConfigLoader.cpp:163-177 | the same for the private interface |
| ProtocolReading.RtspLoaded | src/protocol/ProtocolConfigLoader.cpp:179-195 | the same for RTSP |
| ProtocolReading.Gb28181WithoutFile | src/protocol/ProtocolConfigLoader.cpp:55-62 | without a file exactly the default record is loaded |
| ProtocolReading.OnvifWithoutFile | src/protocol/ProtocolConfigLoader.cpp:55-62 | the same for ONVIF |
| ProtocolReading.PrivateApiWithoutFile | src/protocol/ProtocolConfigLoader.cpp:55-62 | the same for the private interface |
| ProtocolReading.RtspWithoutFile | src/protocol/ProtocolConfigLoader.cpp:55-62 | the same for RTSP |
| ProtocolReading.Gb28181Partial | src/protocol/ProtocolConfigLoader.cpp:105-278 | a file that writes any part of a configuration and leaves out the rest gives the written fields and the defaults of all others, if that is accepted |
| ProtocolReading.OnvifPartial | src/protocol/ProtocolConfigLoader.cpp:144-297 | the same for ONVIF |
| ProtocolReading.PrivateApiPartial | src/protocol/ProtocolConfigLoader.cpp:163-312 | the same for the private interface |
| ProtocolReading.RtspPartial | src/protocol/ProtocolConfigLoader.cpp:179-328 | the same for RTSP |
| ProtocolReading.SavedIfAccepted | src/protocol/ProtocolConfigLoader.cpp:244-328 | a configuration is saved if and only if it is accepted when loaded; otherwise a configuration error |
| ShellQuote.QuoteForShell | src/media/gstreamer/GStreamerPipelineBuilder.cpp:127-155 | both loops compute the specification quoting |
| ShellQuote.ToShellCommand | src/media/gstreamer/GStreamerPipelineBuilder.cpp:88-99 | the loop joins the quoted arguments with single spaces |
| ShellQuote.LeftBare | src/media/gstreamer/GStreamerPipelineBuilder.cpp:127-142 | an argument is left without quotes exactly if it is not empty and has only letters, digits and five signs |
| ShellQuote.ReadQuoted | src/media/gstreamer/GStreamerPipelineBuilder.cpp:127-155 | the shell reads a quoted argument as one word that is the argument, whatever comes behind |
| ShellQuote.CommandReadsBack | src/media/gstreamer/GStreamerPipelineBuilder.cpp:88-155 | splitting the command by the POSIX quoting rules gives back exactly the arguments, empty ones and single quotes included, with no special character left unquoted |
| ShellQuote.CommandInjective | src/media/gstreamer/GStreamerPipelineBuilder.cpp:88-99 | different argument lists print differently |
| BlockingQueue.BlockingQueue.Push | src/foundation/thread/BlockingQueue.h:15-21 | one turn under the mutex sleeps on a full queue, gives up on a closed one, or appends |
| BlockingQueue.BlockingQueue.Pop | src/foundation/thread/BlockingQueue.h:23-31 | one turn takes the oldest value, also from a closed queue, reports nothing on a closed empty one, or sleeps |
| BlockingQueue.BlockingQueue.TryPop | src/foundation/thread/BlockingQueue.h:33-40 | takes the oldest value or reports that there is none, without sleeping |
| BlockingQueue.BlockingQueue.Close | src/foundation/thread/BlockingQueue.h:42-47 | marks the queue closed and keeps its values |
| BlockingQueue.StepKeepsInv | src/foundation/thread/BlockingQueue.h:15-47 | every step of any thread, with any choice of notify_one and any spurious wake-up, keeps the invariant |
| BlockingQueue.RunKeepsInv | src/foundation/thread/BlockingQueue.h:15-47 | in every reachable state a sleeping consumer means at least as many woken ones as values, a sleeping producer as many woken ones as free places; popped then queued values are the accepted ones in order; size keeps within a nonzero capacity |
| BlockingQueue.SomebodyTakes | src/foundation/thread/BlockingQueue.h:23-31 | with a value queued and a consumer asleep, some woken consumer takes the oldest value on its next turn |
| BlockingQueue.SomebodyFills | src/foundation/thread/BlockingQueue.h:15-21 | with a place free and a producer asleep, some woken producer fills it on its next turn |
| BlockingQueue.NoDeadlock | src/foundation/thread/BlockingQueue.h:15-47 | once woken threads have run, consumers sleep only on an empty queue and producers only on a full one, never both, and nobody on a closed queue |
| BlockingQueue.PushAnswers | src/foundation/thread/BlockingQueue.h:15-21 | a push, new or resumed, adds its value and ends if and only if the queue is open and has room; on a closed queue it ends and changes nothing; otherwise it sleeps |
| BlockingQueue.PopAnswers | src/foundation/thread/BlockingQueue.h:23-40 | a pop takes and reports the oldest value whenever there is one, open or closed; without one it reports nothing on a closed queue and sleeps on an open one; tryPop never sleeps |
| BlockingQueue.CloseAnswers | src/foundation/thread/BlockingQueue.h:42-47 | close keeps every value and leaves nobody asleep |
| BlockingQueue.ClosedDrains | src/foundation/thread/BlockingQueue.h:15-47 | from any reachable closed state on, whatever the threads do, pops report exactly the queued values in order and then nothing, and no push is accepted any more |
| FrameSync.Nearest | src/media/frame/FrameSync.cpp:29-37 | the index is that of the first frame at least distance |
| FrameSync.FindNearest | src/media/frame/FrameSync.cpp:29-37 | the search loop finds the first composite at least distance and that distance |
| FrameSync.FrameSync.TrySync | src/media/frame/FrameSync.cpp:25-51 | the search and the discarding branches compute the specification step |
| FrameSync.FrameSync.PushVisible | src/media/frame/FrameSync.cpp:13-17 | appends and keeps the newest frames up to the capacity |
| FrameSync.FrameSync.PushComposite | src/media/frame/FrameSync.cpp:19-23 | appends and keeps the newest frames up to the capacity |
| FrameSync.RunAccounted | src/media/frame/FrameSync.cpp:6-57 | after any run, each group holds a pushed visible frame and the first nearest of the composites queued when it was made, within the limit; emitted frames are in order and none is used twice; queues keep within capacity; and pushed = emitted + discarded + queued on each side |
| FrameSync.MismatchIsHopeless | src/media/frame/FrameSync.cpp:38-42 | with nondecreasing timestamps a discarded frame is too far from every frame of the other side queued now or pushed later |
| FrameSync.TrySyncEmits | src/media/frame/FrameSync.cpp:25-51 | one call emits a group if and only if some queued composite is within the limit of the first visible frame |
| FrameSync.DrainFindsMatch | src/media/frame/FrameSync.cpp:25-51 | repeated calls emit a group within the number of queued frames if and only if some queued pair matches |
| MainStream.MainStream.Init | src/media/stream/MainStream.cpp:20-49 | capacity 1 in low latency, else the frame rate or 30, everything else reset and stopped |
| MainStream.MainStream.Push | src/media/stream/MainStream.cpp:67-91 | a stopped stream refuses; otherwise the loop drops the oldest frames to make room and counts them |
| MainStream.MainStream.TakeFrame | src/media/stream/MainStream.cpp:106-125 | what waitFrame returns once its wait is over, with the frames skipped in low latency counted as dropped |
| MainStream.MainStream.LatestFrame | src/media/stream/MainStream.cpp:128-136 | the newest queued frame, which stays queued |
| MainStream.Run | src/media/stream/MainStream.cpp:20-126 | under any interleaving since the last init: framesIn = delivered + dropped + cleared + queued, delivered frames are pushed ones in order without repeats, and the size keeps within a capacity of at least 1 |
| MainStream.DeliveredFrame | src/media/stream/MainStream.cpp:114-125 | in low latency the frame handed out is the newest pushed and nothing stays; otherwise it is the oldest queued |
| MainStream.PushDropsOldest | src/media/stream/MainStream.cpp:67-91 | a push drops only when the queue is full, and then just the oldest frame; a stopped stream is left as it is |
| MainStream.InitSetsCapacity | src/media/stream/MainStream.cpp:20-49 | one frame in low latency, else the frame rate, taken as unsigned, or 30 for none; empty, stopped and counting from nothing |
| MainStream.NothingToTake | src/media/stream/MainStream.cpp:106-125 | a wait that ends without a frame changes nothing |
| MainStream.StepWakes | src/media/stream/MainStream.cpp:20-126 | every step leaves no sleeper behind whose condition holds, except exactly an init while somebody sleeps |
| MainStream.RunWakes | src/media/stream/MainStream.cpp:20-126 | no wake-up is lost at any point of a run if and only if its inits find nobody asleep |
| MainStream.InitLosesWakeup | src/media/stream/MainStream.cpp:44-48 | a reader asleep during a second init stays asleep although its condition holds; the next stop wakes it |
| ModePlanning.PlanExists | src/mode/ModeSwitchPlanner.cpp:27-63 | a plan exists if and only if the mode is known, not switched off, and its configured sensor output, if any, is valid |
| ModePlanning.SettingsAreLocal | src/mode/ModePolicy.cpp:16-54 | the settings of one mode never change the plan of another, and switching a mode off leaves it without a plan whatever else is set for it |
| ModePlanning.PlanSound | src/mode/ModeSwitchPlanner.cpp:39-84 | under any configuration the planned pipeline fits together (an encoder with decoder, converter and NV12 input, or passthrough alone), asks for just the required cameras, and sensor output and fusion algorithm are definite exactly when required |
| ModePlanning.PlanUsesConfiguredOutput | src/mode/ModePolicy.cpp:29-54 | a configured sensor output is the plan's if and only if the text reads as one of its names; a text that reads as none is a configuration error |
| ModePlanning.PlanServesMode | src/mode/ModePolicy.cpp:56-73 | the visible camera, the default sensor output and the fusion algorithm of a plan deliver exactly the bands the mode is named after |
| ModePlanning.FusionModeTellsMode | src/mode/ModeSwitchPlanner.cpp:87-98 | two fusion modes never share an algorithm |
| ModeManager.FusionEngine.RegisterDefaultAlgorithms | src/algorithm/FusionEngine.cpp:84-92 | registers the three algorithms in order up to the first that fails |
| ModeManager.FusionEngine.SetMode | src/algorithm/FusionEngine.cpp:94-102 | selects a registered algorithm and otherwise changes nothing |
| ModeManager.ModeSwitchExecutor.Stop | src/mode/ModeSwitchExecutor.cpp:22-27 | stops and forgets the pipeline if there is one |
| ModeManager.ModeSwitchExecutor.PrepareFusion | src/mode/ModeSwitchExecutor.cpp:62-73 | initialises and registers once, then selects the algorithm |
| ModeManager.ModeSwitchExecutor.SwitchCompositeSensor | src/mode/ModeSwitchExecutor.cpp:75-93 | switches and waits unless not required or skipped by the environment |
| ModeManager.ModeSwitchExecutor.StartPipeline | src/mode/ModeSwitchExecutor.cpp:95-119 | opens, builds and starts in this order; a pipeline remains only after a successful start |
| ModeManager.ModeSwitchExecutor.Execute | src/mode/ModeSwitchExecutor.cpp:29-44 | the stages in order, each only after the one before succeeded |
| ModeManager.ModeManager.Init | src/mode/ModeManager.cpp:18-36 | a second init is refused and changes nothing; the first gives a fresh state |
| ModeManager.ModeManager.SwitchTo | src/mode/ModeManager.cpp:50-101 | plans, executes and records the outcome; the switching flag is down again on every path |
| ModeManager.ModeManager.Stop | src/mode/ModeManager.cpp:103-108 | stops the pipeline and goes idle |
| ModeRuns.RunRecorded | src/mode/ModeManager.cpp:50-119 | after any sequence of switches and stops with any failures: nobody finds a switch in progress (the Busy branch is unreachable), current and previous mode are the last two successes, both counters count, and an error on record is the last one |
| ModeRuns.RunKeepsMatch | src/mode/ModeSwitchExecutor.cpp:29-119 | in every run an existing pipeline was built from the plan of the current mode, target mode and sensor output included, and for a fusion mode the engine is set to that mode's algorithm |
| ModeRuns.RunSetsSensor | src/mode/ModeSwitchExecutor.cpp:35-118 | in every run, while a pipeline exists the last commands sent are those of the last successful switch: the sensor set to the output of the pipeline's plan and waited for, unless told to leave it alone, then cameras, build and start of that plan |
| ModeRuns.ExecuteOutcome | src/mode/ModeSwitchExecutor.cpp:29-44 | an executed plan leaves its own pipeline on success and none on failure; a plan refused at once leaves everything as it was |
| ModeRuns.RunOrdered | src/mode/ModeSwitchExecutor.cpp:35-118 | in every run the old pipeline is stopped before fusion engine or sensor are touched and before the new one starts, a pipeline starts only right after being built behind opened cameras, and no two run |
| ModeRuns.SuccessfulSwitchCommands | src/mode/ModeSwitchExecutor.cpp:29-119 | a successful switch sends exactly these commands, in this order, with the settings of its plan |
| ModeRuns.SwitchOutcome | src/mode/ModeSwitchExecutor.cpp:29-119 | for any outcomes of the outside calls: a switch succeeds if and only if every call its plan needs succeeds; otherwise its error is that of the first that fails and nothing is sent after it; pipeline, stage, mode and recorded error follow |
| ModeRuns.SwitchRefused | src/mode/ModeSwitchExecutor.cpp:46-60 | a switch without a plan or with a collaborator missing is refused before anything is touched |
| ModeRuns.FreshEngineAfter | src/algorithm/FusionEngine.cpp:85-103 | what a fresh engine has registered and selected after a switch, whichever registration fails |
| ModeRuns.StopOutcome | src/mode/ModeManager.cpp:103-108 | stop stops what runs and goes idle, and changes nothing else |
| ModeRuns.LackIsPermanent | src/mode/ModeSwitchExecutor.cpp:62-73 | an algorithm missing from an engine found initialised is missing for good, and every later switch to its mode fails whatever the hardware answers |
| ModeRuns.SwitchSucceedsIff | src/mode/ModeSwitchExecutor.cpp:29-119 | with all outside calls succeeding and a plan and context at hand, a switch succeeds if and only if its algorithm is not so missing |
| ModeRuns.EmptyEngineNeverFuses | src/mode/ModeSwitchExecutor.cpp:65-72 | with an engine handed over initialised and empty no fusion mode ever works, although every outside call succeeds; with an uninitialised one the same switch succeeds |
| MediaPipeline.MediaPipeline.Init | src/media/pipeline/MediaPipeline.cpp:20-84 | init of any pipeline: refused while running; otherwise counters are reset and nodes created in order up to the first failure, earlier nodes staying where no new one is made |
| MediaPipeline.MediaPipeline.Launch | src/media/pipeline/MediaPipeline.cpp:86-94 | start up to the worker thread: only from initialised or stopped, capture nodes in order, the visible one stopped again when the composite one fails, then the stream |
| MediaPipeline.MediaPipeline.Start | src/media/pipeline/MediaPipeline.cpp:86-98 | start with any turns the worker takes before the state is set to running |
| MediaPipeline.MediaPipeline.Stop | src/media/pipeline/MediaPipeline.cpp:115-131 | stops the nodes there are and the stream, and sets the state |
| MediaPipeline.LaunchAllOrNothing | src/media/pipeline/MediaPipeline.cpp:86-113 | start succeeds if and only if the pipeline is initialised or stopped and its cameras start; success turns on exactly the nodes there are and the stream; failure leaves everything off |
| MediaPipeline.StopUndoesLaunch | src/media/pipeline/MediaPipeline.cpp:86-131 | stop turns off everything start turned on and changes nothing but the state besides |
| MediaPipeline.MediaPipeline.PrepareFrameForPipeline | src/media/pipeline/MediaPipeline.cpp:162-191 | decodes MJPEG where there is a decoder and hands the frame to the encoder's preparation |
| MediaPipeline.MediaPipeline.PrepareFrameForEncoder | src/media/pipeline/MediaPipeline.cpp:193-214 | passes a frame of the right format, converts another, or refuses |
| MediaPipeline.MediaPipeline.PublishFrame | src/media/pipeline/MediaPipeline.cpp:216-247 | encodes and pushes, or passes MJPEG through, and counts before pushing |
| MediaPipeline.MediaPipeline.ProcessOneFrame | src/media/pipeline/MediaPipeline.cpp:142-160 | the stages in order, each only after the one before succeeded |
| MediaPipeline.MediaPipeline.Turn | src/media/pipeline/MediaPipeline.cpp:133-256 | a failed turn is counted, and an error other than a timeout sets the error state |
| MediaPipeline.InitBuildsIff | src/media/pipeline/MediaPipeline.cpp:20-69 | a successful init leaves exactly the nodes of its configuration if and only if no earlier init left others |
| MediaPipeline.InitBuilds | src/media/pipeline/MediaPipeline.cpp:20-69 | a fresh pipeline whose init succeeded has exactly the nodes of its configuration; one whose init failed cannot start |
| MediaPipeline.InitSucceedsIff | src/media/pipeline/MediaPipeline.cpp:20-84 | init succeeds if and only if nothing in context, nodes and codecs keeps it from it, and otherwise returns the first thing that does |
| MediaPipeline.PreparedForEncoder | src/media/pipeline/MediaPipeline.cpp:162-214 | whatever is captured or decoded, what the encoder gets has its input format |
| MediaPipeline.ConvertedIsEncodable | src/media/process/FormatConvertNode.cpp:29-74 | a converted frame keeps its size and time and passes all of the encoder's checks |
| MediaPipeline.TurnIsSafe | src/media/pipeline/MediaPipeline.cpp:142-247 | one turn adds at most one encoder input, of its format, and at most one published frame, which is the encoder's output for that input or the captured MJPEG untouched |
| MediaPipeline.TurnCounts | src/media/pipeline/MediaPipeline.cpp:133-256 | each turn adds exactly one published frame or one error, and no later stage gains more than an earlier one |
| MediaPipeline.TurnIsExact | src/media/pipeline/MediaPipeline.cpp:133-256 | a turn publishes if and only if cameras, decoder, converter, encoder and stream do what its configuration and the formats and sizes of the frame need, and then exactly the frame to be made; each counter and the state follow exactly |
| MediaPipeline.NothingPassesThrough | src/media/pipeline/MediaPipeline.cpp:226-235 | without an encoder and without permission to pass frames through nothing is published |
| MediaPipeline.RunKeepsSound | src/media/pipeline/MediaPipeline.cpp:133-256 | over any run the encoder saw only NV12, the stream took frames of the right codec, and published <= encoded <= captured |
| MediaPipeline.RunTraced | src/media/pipeline/MediaPipeline.cpp:133-247 | over any run every frame in the stream is traced to a turn of its own, in the order of the turns: it is the encoder's output for that turn's input of the encoder's format, or that turn's captured MJPEG data untouched |
| MediaPipeline.RunDelivers | src/media/pipeline/MediaPipeline.cpp:133-256 | over any run the stream gets exactly the frames of the turns in which all that is needed succeeds, in order |
| MediaPipeline.PlannedPipelineSound | src/media/pipeline/PipelineBuilder.cpp:6-121 | both hold for every pipeline of every plan the planner can build, under any configuration and any answers, so a raw frame never reaches the stream |
| MediaPipeline.PlannedPipelineDelivers | src/media/pipeline/PipelineBuilder.cpp:6-121 | the same from the plan to the stream, for every plan the planner can build |
| MediaPipeline.ErrorIsSticky | src/media/pipeline/MediaPipeline.cpp:249-256 | while running, the error state is reached exactly by an error other than a timeout and never left by a later turn |
| MediaPipeline.StartHidesEarlyErrors | src/media/pipeline/MediaPipeline.cpp:92-96 | for any worker turns before and after start sets the running state: the error state tells of the hard errors after only, so of all of them if and only if there was none before or there is one after; the error counter tells of both |
| MediaPipeline.EarlyErrorIsHidden | src/media/pipeline/MediaPipeline.cpp:92-96 | there can be a hard error before: the first capture fails and start still ends in running |
| SerialProtocol.Checksum16 | src/foundation/utils/ByteUtils.h:23-28 | the 32-bit wrapping accumulator gives the exact word sum modulo 2^16 |
| SerialProtocol.ParseUndoesAppend | src/hardware/serial/SerialProtocol.cpp:12-25 | parsing undoes appending for every nonempty payload of any length or parity; the empty one is refused |
| SerialProtocol.AcceptedFramesAreBuilt | src/hardware/serial/SerialProtocol.cpp:18-25 | the parser accepts exactly the frames the builder makes from nonempty payloads |
| SerialProtocol.WordSumUpdate | src/foundation/utils/ByteUtils.h:23-28 | changing one byte moves the exact sum by the byte's weight |
| SerialProtocol.SingleByteChangeRejected | src/hardware/serial/SerialProtocol.cpp:18-25 | every change of a single byte of a built frame is rejected |
| SensorCommands.ChecksumsAgree | src/device_control/CompositeSensorCommandBuilder.cpp:155-166 | the word checksum of the builder is the byte checksum of the serial layer |
| SensorCommands.BuiltCommandDecodes | src/device_control/CompositeSensorCommandBuilder.cpp:51-89 | for all addresses and values a built frame decodes to its fields and passes the serial checksum behind its header |
| SensorCommands.FrameBytes | src/device_control/CompositeSensorCommandBuilder.cpp:51-89 | the read and write commands and the read acknowledgement, byte by byte, with the sum of the words behind the header |
| SensorCommands.WriteAckExact | src/device_control/CompositeSensorCommandParser.cpp:48-103 | exactly one byte string is accepted as a write acknowledgement |
| SensorCommands.ReadAckExact | src/device_control/CompositeSensorCommandParser.cpp:105-162 | exactly one byte string for each data word is accepted as a read acknowledgement, and that word is returned |
| SensorCommands.ModeReportRoundTrip | src/device_control/CompositeSensorCommandBuilder.cpp:26-35 | a ready builder makes a command for every known mode, which decodes to a write of its number to register 0x6500; a report of that number tells the mode |
| SensorCommands.ModeReportExact | src/device_control/CompositeSensorCommandParser.cpp:164-190 | a report tells a mode if and only if it is the acknowledgement of the mode's number, or no acknowledgement but text that reads as one of its names |
| SensorCommands.OutputModeNames | src/device_control/CompositeSensorControlTypes.cpp:60-73 | exactly four, four and five names, in any letters and with blanks, underscores, dashes and dots anywhere, name the three outputs |
| SensorCommands.OutputModeReadsBack | src/device_control/CompositeSensorControlTypes.cpp:18-26 | what is printed for an output is read as that output |
| HexText.PrintHex | src/foundation/utils/ByteUtils.h:14-21 | the loop prints two upper-case digits a byte with a space between bytes if asked |
| HexText.ParseHexCommand | src/device_control/CompositeSensorCommandBuilder.cpp:105-153 | the loops skip prefixes and separators, keep the digits, and refuse other characters, no digits or an odd number |
| HexText.HexRoundTrip | src/device_control/CompositeSensorCommandBuilder.cpp:105-153 | parsing the printed bytes gives them back, spaced or not; no bytes are refused |
| HexText.CaseDoesNotMatter | src/device_control/CompositeSensorCommandBuilder.cpp:105-153 | capital and small hex letters mean the same anywhere |
| HexText.OtherRefused | src/device_control/CompositeSensorCommandBuilder.cpp:126-132 | any character but hex digits, separators and the x of a prefix is refused |
| HexText.OddRefused | src/device_control/CompositeSensorCommandBuilder.cpp:136-142 | one digit too many is refused |
| HexText.ByteIsTwoDigits | src/foundation/utils/ByteUtils.h:14-21 | a byte is printed as two capital digits |
| HexText.InsertSeparator | src/device_control/CompositeSensorCommandBuilder.cpp:113-129 | a separator inserted anywhere changes nothing, except inside a prefix, where it makes the text invalid |
| SensorController.ReadExactlyTakesNext | src/device_control/CompositeSensorController.cpp:400-419 | however bytes are chunked, an exact read returns exactly the next n, leaves the others, and fails only if fewer arrive |
| SensorController.RetrySucceedsByAcknowledgement | src/device_control/CompositeSensorController.cpp:302-367 | a command succeeds if and only if one of at most max(1, retries + 1) attempts reads the executable acknowledgement or, where acknowledgements are optional, runs into a timeout |
| SensorController.RetrySendsOnlyTheCommand | src/device_control/CompositeSensorController.cpp:302-317 | the command goes out at most once an attempt and nothing else goes out |
| SensorController.SetFusionModeOutcome | src/device_control/CompositeSensorController.cpp:84-100 | setting a mode writes its number to register 0x6500 and succeeds exactly by such an attempt of at most max(1, retries + 1); a failure changes neither mode nor switch count, is counted once, and leaves the controller online |
| SensorController.WriteRegisterOutcome | src/device_control/CompositeSensorController.cpp:177-205 | a register write succeeds if and only if an attempt is acknowledged or, where that is optional, left unanswered; the command goes out at most once an attempt |
| SensorController.RetryReadsFirstAnswer | src/device_control/CompositeSensorController.cpp:319-398 | a read with retries gives exactly the data of the first attempt that is answered |
| SensorController.ReadRegisterOutcome | src/device_control/CompositeSensorController.cpp:142-175 | a register read returns a word if and only if it is the data of the first answered attempt of at most max(1, retries + 1); a failure is counted once and changes nothing else |
| SensorController.GetFusionModeOutcome | src/device_control/CompositeSensorController.cpp:106-121 | a mode query returns and records a mode if and only if the first answer is 1, 2 or 3; any other answer and any failure leave the recorded mode |
| SensorController.InitOpensIff | src/device_control/CompositeSensorController.cpp:37-72 | init opens the port if and only if it is enabled, its settings are good and the system opens it; otherwise the first failure is returned and counted |
| SensorController.ShutdownRefuses | src/device_control/CompositeSensorController.cpp:74-78 | after a shutdown every access is refused and changes nothing |
| SensorController.RunKeepsConsistent | src/device_control/CompositeSensorController.cpp:37-78 | in every reachable state initialised, online and open are the same |
| SensorController.SwitchesCounted | src/device_control/CompositeSensorController.cpp:93-96 | the switch counter counts the successful settings of the run modulo 2^32 |
| SensorController.OnlineUntilShutdown | src/device_control/CompositeSensorController.cpp:315-437 | once initialised the controller stays online until shut down, whatever the port does, because retries replace the error code |
| SensorController.CompositeSensorController.ReadExact | src/device_control/CompositeSensorController.cpp:400-419 | the growing buffer holds what the specification read returns |
| SensorController.CompositeSensorController.SendWriteCommandWithRetry | src/device_control/CompositeSensorController.cpp:302-317 | the retry loop is the specification's sequence of attempts |
| SensorController.CompositeSensorController.SendReadCommandWithRetry | src/device_control/CompositeSensorController.cpp:319-335 | the retry loop is the specification's sequence of attempts |
| SensorController.CompositeSensorController.WriteReg | src/device_control/CompositeSensorController.cpp:177-205 | new state and result of a register write |
| SensorController.CompositeSensorController.ReadReg | src/device_control/CompositeSensorController.cpp:142-175 | new state and result of a register read |
| SensorController.CompositeSensorController.SetFusionMode | src/device_control/CompositeSensorController.cpp:84-100 | new state and result of a mode setting |
| SensorController.CompositeSensorController.GetFusionMode | src/device_control/CompositeSensorController.cpp:106-121 | new state and result of a mode query; an unknown value changes no mode |
| SensorController.CompositeSensorController.Initialise | src/device_control/CompositeSensorController.cpp:37-72 | new state and result for every way in which init can end |
| StreamSplit.UnitStartsExact | tests/l8_gb28181_play_probe.cpp:549-561 | the skipping scan finds exactly the start codes, in increasing order |
| StreamSplit.SplitAnnexBFrames | tests/l8_gb28181_play_probe.cpp:548-602 | the scan and the grouping loop compute the specification frames |
| StreamSplit.AddUnit | tests/l8_gb28181_play_probe.cpp:587-597 | the turn of the grouping loop for one unit closes the current frame at its second coded slice and takes the unit in |
| StreamSplit.FramesPartition | tests/l8_gb28181_play_probe.cpp:569-600 | grouping loses and reorders no unit; every frame but the last holds exactly one coded slice and the last at most one; every frame but the first starts with one |
| StreamSplit.AnnexBConservation | tests/l8_gb28181_play_probe.cpp:548-602 | the frames put together are the data from the first start code on, less only the bare start codes of empty units |
| StreamSplit.SplitPsPacks | tests/l8_gb28181_play_probe.cpp:828-858 | both loops compute the specification packs |
| StreamSplit.PacksConservation | tests/l8_gb28181_play_probe.cpp:828-858 | the packs put together are the data from the first pack on, and each has its start code at offset 0 and nowhere else |
| StreamSplit.PackCode | tests/l8_gb28181_play_probe.cpp:831-838 | the pack start code is 00 00 01 BA |
| StreamSplit.RtpDecodes | tests/l8_gb28181_play_probe.cpp:688-712 | an RTP packet decodes to its marker, number, timestamp, source and payload |
| StreamSplit.SendPack | tests/l8_gb28181_play_probe.cpp:923-956 | the fragment loop sends the packets of one pack, or a prefix after a failure, and advances the number |
| StreamSplit.SendPacks | tests/l8_gb28181_play_probe.cpp:911-962 | one pass sends the packets of all packs with running numbers and timestamps |
| StreamSplit.StreamPacksAsRtp | tests/l8_gb28181_play_probe.cpp:905-963 | all loops send the packets of the repeated packs with one running sequence |
| StreamSplit.StreamDepacketised | tests/l8_gb28181_play_probe.cpp:910-963 | joining payloads up to each marker gives back exactly the packs, in order |
| StreamSplit.StreamNumbers | tests/l8_gb28181_play_probe.cpp:926-956 | numbers run on without a gap across packs, no payload exceeds 1200 bytes and all but the last of a pack have just that |
| StreamSplit.StreamTimes | tests/l8_gb28181_play_probe.cpp:905-963 | every packet of the i-th pack has the time of frame i in ticks of 1/90000 s modulo 2^32 |
| StreamSplit.LoopedPacksDelivered | tests/l8_gb28181_play_probe.cpp:860-963 | from a nonempty file the receiver gets its packs once for every loop |
| StreamSplit.PesTimestampRoundTrip | tests/l8_gb28181_play_probe.cpp:620-628 | five bytes with their marker bits, from which the low 33 bits of the timestamp are read back |
| Text.NatTextInjective | src/foundation/config/ConfigManager.cpp:133 | printing natural numbers is injective |
| Text.TrimIsSlice | src/foundation/utils/StringUtils.h:11-16 | trimming keeps a contiguous piece with no blank at either end |

## Left out

- Sockets, termios, poll, fork, files: replaced by byte sequences and outcomes. Reading a file gives what was written to it, or nothing.
- Error texts, log lines, events and clock values (lastSwitchBeginMs, lastSwitchTimeMs and the like): not part of any state here; where a text is kept, only its code or its presence is.
- The 64-bit counters of streams and pipelines, and 64-bit timestamps: unbounded integers, so their wrap-around and the overflow of a difference of two timestamps are not modelled. The 16-bit and 32-bit numbers wrap as in the source.
- The bytes a failed serial write may already have sent, and late acknowledgements: nothing flushes the port, so a late reply can be taken for the answer to the next command; no claim is made that the device register equals the recorded mode.
- ModeManager.FusionEngine.SetMode: the engine is taken to be used by the executor only between two switches; processing of frames, registration, enhancement and the algorithms themselves are not modelled.
- MediaPipeline.MediaPipeline.Init: an init while the worker of an earlier start still runs, which the error state does not prevent, is a data race and not modelled.
- MediaPipeline.MediaPipeline.PublishFrame: the stream is an outcome for each push; MainStream models the stream itself.
- MediaPipeline.MediaPipeline.Stop: joining the worker and releasing the codecs are not modelled.
- MainStream.MainStream.TakeFrame: the wait before it is modelled by the steps of MainStream.Run, not inside the method; so are the notifications of Push and Stop.
- BlockingQueue.BlockingQueue.Push: sleeping and notifying are steps of BlockingQueue.Step, not inside the method; the method is one turn with the mutex held.
- ShellQuote.CommandReadsBack: the reader knows quoting and characters special outside quotes; assignment words, reserved words and locale-dependent letters are not modelled.
- RtpReceiver.FrameDelivered: does not claim that the type field follows section 4.1 of RFC 2435, which the code does not.
- StreamSplit.StreamPacksAsRtp: pacing by the clock is left out, as is makePsPacket, whose pack header does not follow the standard layout and which main does not use.
- YamlTree.TreeFlattened: a tree has no lines with neither colon nor dash and no items outside a key; what the parser does on one of them is stated line by line (SimpleYaml.PlainLine, SimpleYaml.OutsideItem), not for whole texts that mix them in.
- ProtocolReading.Gb28181Loaded: speaks of every text that spells a tree; a text that spells none (keys twice under one level, say) is covered by the parser's specification and ProtocolConfig.Gb28181FromRepresentable only.
- RtpJpeg.TimestampTicks: behind the first time whose 64-bit product overflows the clock falls back (RtpJpeg.TimestampWraps); the ticks there are those of the source, but no law is stated for them.
- ConfigManager: the camera, serial, mode and media sections use the same getters on other keys.
- ProtocolConfigLoader::loadAll and the configuration store: the four loaders in a row.
- HTTP routing, RTSP requests and responses, device registration, ONVIF services, command router and handlers, status flattening and name tables: thin layers with easy members only.
