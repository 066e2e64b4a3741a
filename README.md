# PhotoboothV5 core in Dafny

PhotoboothV5 is a kiosk photo booth. A Go backend drives a camera through
gphoto2, runs the countdown-capture-preview sequence, stores photos per
album, exports albums to USB sticks and pushes its state to browser clients
over a websocket hub. A Vue frontend mirrors that state in a store and
offers a client-mode picker and a hidden exit gesture. This project models
that core and proves properties of the model:

- `config.dfy`: the booth configuration, its loading with repaired maps,
  and the album-name sanitiser (module `Config`).
- `logging.dfy`: the bounded in-memory log buffer and the default-logger
  registry (`Logging`).
- `storage.dfy`: image-file recognition and the newest-first photo
  listing (`Storage`).
- `camera.dfy`: parsing gphoto2's summary and storage output, capture file
  names, and the busy-guarded capture (`Camera`).
- `usb.dfy`: lsblk filtering, mounting, unmounting and the cancellable
  recursive copy with progress counters (`Usb`).
- `events.dfy`: the websocket event shape shared by the backend and the
  frontend (`Events`).
- `hub.dfy`: the hub's client set, its broadcast that drops slow clients,
  the per-client writer, and the reader's message dispatch (`Websocket`).
- `controller.dfy`: the application state machine, the capture run step by
  step, uptime formatting, album selection, deletion, counting and
  listing (`App`).
- `handler.dfy`: the settings, logs and USB export/cancel/unmount HTTP
  handlers and the export guard (`Api`).
- `photobooth_store.dfy`: the frontend store's reducer over websocket
  events, its log cap, its timers and its trigger (`PhotoboothStore`).
- `client_mode.dfy`: the client-mode table and store (`ClientModeStore`).
- `exit_lock.dfy`: the ten-tap exit unlock (`Composables`).
- `text.dfy` and `wrappers.dfy`: string helpers (ASCII case mapping,
  Unicode white-space trimming, splitting, path extension and joining,
  decimal conversion) and `Option`/`Result`.

Every external effect is an explicit parameter: a directory listing, the
outcome of a command, the current time, whether a file exists, whether a
save succeeded. Sleeps and timers become separate steps that the
environment takes. The websocket hub keeps a ghost history of the events
each client accepted, and its invariant ties the client's queue and
written frames to that history.

## Model

| member | source | states |
|---|---|---|
| Config.SanitizeIsSanitized | backend/internal/config/config.go:172-191 | Every sanitised name uses only a-z, 0-9, `_` and `-`, has no `__`, does not start or end with `_`, and is non-empty. |
| Config.SanitizeAlbumName | backend/internal/config/config.go:172-191 | The album-id sanitiser: trim spaces, lower-case, replace runs outside a-z, 0-9 and `-` by `_`, trim `_`, collapse `_` runs, fall back to "default". Its results are in sanitised form (`SanitizeIsSanitized`), it fixes exactly the sanitised names (`SanitizeFixpoint`) and it is idempotent (`SanitizeIdempotent`). |
| Config.ReplaceDisallowedRuns | backend/internal/config/config.go:177-178 | The `[^a-z0-9\-]+` to `_` replacement. It leaves only allowed characters and `_` with no `__` (`ReplaceRunsShape`), keeps allowed prefixes (`ReplaceAllowedPrefix`) and turns each whole disallowed run into one `_` (`ReplaceDisallowedRun`). |
| Config.CollapseUnderscores | backend/internal/config/config.go:184-185 | The `_+` to `_` replacement. It is the identity on strings without `__` (`CollapseIdentity`). |
| Config.SanitizeFixesSanitized | backend/internal/config/config.go:172-191 | A name that is already in sanitised form comes back unchanged. |
| Config.SanitizeFixpoint | backend/internal/config/config.go:172-191 | A name is a fixed point of the sanitiser exactly when it is in sanitised form. |
| Config.SanitizeIdempotent | backend/internal/config/config.go:172-191 | Sanitising twice gives the same id as sanitising once. |
| Config.DefaultIsSanitized | backend/internal/config/config.go:187-189 | The fallback id "default" is itself in sanitised form. |
| Config.ReplaceRunsShape | backend/internal/config/config.go:177-178 | After replacing runs of disallowed characters, only allowed characters remain, no `__` appears, and inside a run the output does not start with `_`. |
| Config.ReplaceIdentity | backend/internal/config/config.go:177-178 | The replacement leaves a string of allowed characters without `__` unchanged. |
| Config.CollapseIdentity | backend/internal/config/config.go:184-185 | Collapsing underscores leaves a string without `__` unchanged. |
| Config.SliceKeepsShape | backend/internal/config/config.go:181 | Any slice of a string with allowed characters and no `__` keeps both properties. |
| Config.TrimUnderscoresShape | backend/internal/config/config.go:181 | Trimming `_` keeps the character set and the no-`__` property, and leaves no `_` at either end. |
| Config.ReplaceAllowedPrefix | backend/internal/config/config.go:177-178 | A prefix of allowed characters passes through the replacement unchanged. |
| Config.ReplaceDisallowedHead | backend/internal/config/config.go:177-178 | A disallowed character becomes one `_`, or nothing when it continues a run. |
| Config.ReplaceDisallowedRun | backend/internal/config/config.go:177-178 | A whole run of disallowed characters becomes a single `_`. |
| Config.TrimOneTrailingUnderscore | backend/internal/config/config.go:181 | A single trailing `_` after a clean word is trimmed away. |
| Config.SanitizeExampleHochZeit | backend/internal/config/config.go:171 | "Hoch Zeit!" sanitises to "hoch_zeit", as the doc comment says. |
| Config.SanitizeExampleDoubleSpace | backend/internal/config/config.go:171 | "test  event" sanitises to "test_event". |
| Config.HochZeitTrimmed | backend/internal/config/config.go:174 | Step of the first example: trimming spaces leaves "Hoch Zeit!" unchanged. |
| Config.HochZeitLowered | backend/internal/config/config.go:174 | Step of the first example: lower-casing gives "hoch zeit!". |
| Config.HochZeitReplaced | backend/internal/config/config.go:177-178 | Step of the first example: the space and the `!` each become `_`. |
| Config.DoubleSpaceTrimmed | backend/internal/config/config.go:174 | Step of the second example: trimming leaves the inner double space. |
| Config.DoubleSpaceLowered | backend/internal/config/config.go:174 | Step of the second example: lower-casing changes nothing. |
| Config.DoubleSpaceReplaced | backend/internal/config/config.go:177-178 | Step of the second example: the two spaces become one `_`. |
| Config.EnsureMaps | backend/internal/config/config.go:128-138 | After loading, both album maps exist. A missing "default" strategy becomes "C". A missing name map becomes {"default": "Default"}. Every existing entry and every other field is kept. |
| Config.Lookup | backend/internal/app/controller.go:422-425 | Indexing an album map that may be nil, as Go does: a nil map finds nothing. `RunStrategy` and `ListedStrategy` state what each caller makes of a miss. |
| Config.Defaults | backend/internal/config/config.go:58-90 | The values Load starts from: countdown 3 s, preview 5 s, no trigger delay, photos under "data/photos", current album "default" named "Default" with strategy "C". `Config.Config.Load` states that a missing file leaves them in place. |
| Config.Config.Load | backend/internal/config/config.go:56-141 | The loaded config holds the decoded sections with repaired maps. Its save path is the user file that was found, else the fallback chosen from the server file. |
| Config.Config.UpdateBooth | backend/internal/config/config.go:164-168 | The booth section is replaced and nothing else changes. |
| Logging.DropCount | backend/internal/logging/logger.go:65-69 | Nothing is dropped below capacity; at capacity a tenth of maxSize is dropped. |
| Logging.AfterAdd | backend/internal/logging/logger.go:56-76 | The buffer after one Add: the entry last, after a suffix of the old buffer (`AddAppendsAndKeepsOrder`), within its bound for maxSize of at least 10 (`AddKeepsBound`). |
| Logging.AddAppendsAndKeepsOrder | backend/internal/logging/logger.go:56-76 | Add appends the entry last and keeps the surviving entries as a suffix of the old buffer, in order. |
| Logging.AddKeepsBound | backend/internal/logging/logger.go:65-70 | For maxSize of at least 10, a buffer within its bound stays within it. |
| Logging.SmallBufferGrows | backend/internal/logging/logger.go:65-70 | For maxSize below 10 nothing is ever dropped, so the buffer grows without bound. |
| Logging.FullDefaultBufferDropsFifty | backend/internal/logging/logger.go:65-70 | A full default buffer of 500 drops its oldest 50 and holds 451 afterwards. |
| Logging.LastEntries | backend/internal/logging/logger.go:78-91 | The result is a suffix of the buffer. It holds `limit` entries when 0 < limit <= size, and the whole buffer otherwise. |
| Logging.LevelNameInjective | backend/internal/logging/logger.go:9-16 | The four level names are pairwise distinct, so an entry's JSON level identifies its level. |
| Logging.Logger.constructor | backend/internal/logging/logger.go:37-43 | A new logger is empty, has no broadcast sink and has the given capacity. |
| Logging.Logger.SetBroadcast | backend/internal/logging/logger.go:52-54 | Installs or clears the broadcast sink. |
| Logging.Logger.Add | backend/internal/logging/logger.go:56-76 | The buffer becomes the drop-then-append result. The sink receives the entry exactly when one is installed. |
| Logging.Logger.GetEntries | backend/internal/logging/logger.go:78-91 | Returns the last `limit` entries, as `LastEntries` specifies. |
| Logging.Registry.constructor | backend/internal/logging/logger.go:35 | No default logger exists at start. |
| Logging.Registry.Init | backend/internal/logging/logger.go:37-43 | Installs a fresh, empty default logger with the given capacity. |
| Logging.Registry.Get | backend/internal/logging/logger.go:45-50 | Returns the existing default logger, or creates one of capacity 500. |
| Storage.IsImageBySuffix | backend/internal/storage/photos.go:69-72 | A name is an image exactly when its lower-cased form ends in .jpg, .jpeg or .png. |
| Storage.IsImage | backend/internal/storage/photos.go:69-72 | A name is an image when its extension, lower-cased, is .jpg, .jpeg or .png. `IsImageBySuffix` states this as a suffix test in both directions. |
| Storage.IsImageUpperCase | backend/internal/storage/photos.go:69-72 | Upper-case extensions count: "IMG_20240101_120000.JPG" is an image. |
| Storage.IsImageRejectsOtherExtension | backend/internal/storage/photos.go:69-72 | "notes.txt" is not an image. |
| Storage.IsImageRejectsNoDot | backend/internal/storage/photos.go:69-72 | "jpg" without a dot is not an image. |
| Storage.ToLowerSuffix | backend/internal/storage/photos.go:70 | Lower-casing commutes with taking a suffix. |
| Storage.SuffixGivesExtension | backend/internal/storage/photos.go:70 | A name whose lower-cased form ends in "." + ext has extension "." + ext. |
| Storage.ExtensionGivesSuffix | backend/internal/storage/photos.go:70 | A name with extension "." + ext ends in "." + ext once lower-cased. |
| Storage.ExtensionIsSuffix | backend/internal/storage/photos.go:70 | The extension test and the suffix test agree in both directions. |
| Storage.PhotoFor | backend/internal/storage/photos.go:51-56 | A listed photo carries its file name, its modification time, and the preview and thumbnail URLs built from the name. |
| Storage.ListedMembership | backend/internal/storage/photos.go:46-58 | A photo is listed exactly when it comes from a non-directory image entry whose Info() succeeded. |
| Storage.Listed | backend/internal/storage/photos.go:46-58 | The photos List keeps, in listing order. `ListedMembership` states both directions of which entries are kept; `Manager.List` returns a newest-first permutation of them. |
| Storage.InsertByTime | backend/internal/storage/photos.go:62-64 | Insertion adds exactly the one photo. |
| Storage.InsertByTimeSorted | backend/internal/storage/photos.go:62-64 | Inserting into a newest-first list keeps it newest-first. |
| Storage.SortNewestFirst | backend/internal/storage/photos.go:62-64 | The result is newest-first and a permutation of the input. |
| Storage.FirstIsNewest | backend/internal/storage/photos.go:74-80 | In a newest-first list no photo is newer than the first. |
| Storage.Manager.constructor | backend/internal/storage/photos.go:22-24 | The manager starts at the given root directory. |
| Storage.Manager.SetRootDir | backend/internal/storage/photos.go:27-29 | The root directory is replaced. |
| Storage.Manager.List | backend/internal/storage/photos.go:38-67 | A failed ReadDir returns its error. Otherwise the result is newest-first and a permutation of exactly the listed photos. |
| Storage.Manager.GetLatest | backend/internal/storage/photos.go:74-80 | Returns nothing exactly when the listing failed or is empty. Otherwise it returns a listed photo that is no older than any other. |
| Camera.ParseLine | backend/internal/camera/gphoto.go:65-73 | A line yields a key and a value exactly when it contains a colon. |
| Camera.ParseLineFirstColon | backend/internal/camera/gphoto.go:65-73 | The key is everything before the first colon and the value everything after it, both trimmed, so a value may contain colons. |
| Camera.KeyNameInjective | backend/internal/camera/gphoto.go:74-105 | The recognised keys are pairwise distinct, so each names one field. |
| Camera.FieldFor | backend/internal/camera/gphoto.go:74-105 | A key maps to the field of that section with that key name, and to nothing when no such field exists. |
| Camera.Set | backend/internal/camera/gphoto.go:74-105 | Setting a field changes only that field. |
| Camera.ApplyLineField | backend/internal/camera/gphoto.go:64-107 | A line changes a field exactly when it parses and its lower-cased key is that field's key in the section being parsed. |
| Camera.ApplyLines | backend/internal/camera/gphoto.go:64-107 | The description after reading every line in order. `ApplyLinesFields` proves each field holds the value of the last line naming it, or its earlier value. |
| Camera.ApplyLinesFields | backend/internal/camera/gphoto.go:64-107 | After parsing, each field holds the value of the last matching line, or its earlier value when no line matches. |
| Camera.ParseOutput | backend/internal/camera/gphoto.go:64-107 | The line loop computes the fold of all lines of the output. |
| Camera.GetInfo | backend/internal/camera/gphoto.go:29-61 | Mock mode returns the fixed mock info. A failed summary returns "not connected". Otherwise the result is connected, with the summary parsed, then the storage output when that command succeeded. |
| Camera.StorageFailureKeepsSummary | backend/internal/camera/gphoto.go:55-58 | When the storage command fails, the summary fields stand and the storage fields stay empty. |
| Camera.DatePartRoundTrip | backend/internal/camera/gphoto.go:133 | The 8-character date stamp reads back to the year, month and day. |
| Camera.CaptureFileName | backend/internal/camera/gphoto.go:133 | The capture file name `IMG_yyyymmdd_hhmmss.jpg`. `CaptureFileNameRoundTrip` proves it reads back to the capture time and `CaptureFileNameIsImage` that the photo listing accepts it. |
| Camera.ParseCaptureFileName | backend/internal/camera/gphoto.go:133 | The inverse of the capture file name: `None` unless the name has that exact shape with digits and a valid time. `CaptureFileNameRoundTrip` is the round trip. |
| Camera.ClockPartRoundTrip | backend/internal/camera/gphoto.go:133 | The 6-character time stamp reads back to the hour, minute and second. |
| Camera.CaptureFileNameRoundTrip | backend/internal/camera/gphoto.go:133 | The 23-character capture file name reads back to the capture time, so distinct seconds give distinct names. |
| Camera.CaptureFileNameIsImage | backend/internal/camera/gphoto.go:133 | Every capture file name is recognised as an image by the photo listing. |
| Camera.Controller.constructor | backend/internal/camera/gphoto.go:109-121 | A new controller is idle. |
| Camera.Controller.Capture | backend/internal/camera/gphoto.go:123-186 | A busy camera refuses with "camera is busy" and stays busy. Otherwise the target is `<dataDir>/original/IMG_<stamp>.jpg`. The result is the mock write error, the command error, "file not found after capture", or the file name. The camera is idle afterwards. |
| Usb.ToUsbDevice | backend/internal/disk/usb.go:64-75 | A partition is reported with its own fields, and its label defaults to "USB Laufwerk". |
| Usb.ChildrenListedMembership | backend/internal/disk/usb.go:61-77 | A device is listed from a parent exactly when it comes from a child that is USB or has a USB parent. |
| Usb.UsbPartitionsMembership | backend/internal/disk/usb.go:57-78 | The devices listed are exactly the USB partitions of the lsblk tree. |
| Usb.UsbPartitions | backend/internal/disk/usb.go:57-78 | The partitions the lsblk loop reports, parent by parent. `UsbPartitionsMembership` states both directions of which children are listed. |
| Usb.GetUsbDevices | backend/internal/disk/usb.go:44-81 | An lsblk or unmarshal failure gives its error message. Otherwise the loop returns every USB partition. |
| Usb.FirstByName | backend/internal/disk/usb.go:90-96 | Finds the first device with that name, or reports that none has it. |
| Usb.MountUsb | backend/internal/disk/usb.go:84-115 | Returns a listing error, "device ... not found", the existing mount point, a mount error, or `/media/<name>`, in that order of precedence. |
| Usb.UnmountUsb | backend/internal/disk/usb.go:118-127 | Fails exactly when umount fails. |
| Usb.FilesOf | backend/internal/disk/usb.go:162-196 | The depth-first file sequence of a tree holds only files. |
| Usb.FilesOfSeqConcat | backend/internal/disk/usb.go:162-196 | The files of a concatenated listing are the concatenation of their files. |
| Usb.SumSizesAppend | backend/internal/disk/usb.go:190-191 | Byte totals add up over concatenation. |
| Usb.WalkSeesAllFiles | backend/internal/disk/usb.go:136-144 | In a tree whose directories all list and whose files all stat, the Walk counts exactly the files the copy visits. |
| Usb.WalkFiles | backend/internal/disk/usb.go:136-144 | The files the counting Walk sees: files whose stat works, inside directories that list. `WalkSeesAllFiles` proves they are all the files of a healthy tree. |
| Usb.WalkSeesAllFilesSeq | backend/internal/disk/usb.go:136-144 | The same for a listing of entries. |
| Usb.PrefixWithin | backend/internal/disk/usb.go:162-196 | A copied prefix of one entry's files is a copied prefix of the enclosing sequence. |
| Usb.StoppedInEntry | backend/internal/disk/usb.go:166-188 | A copy stopped inside the i-th entry has copied a prefix of the directory's files, and a failed file is still the next one. |
| Usb.UnlistableIn | backend/internal/disk/usb.go:155-158 | A directory of that name in the tree whose ReadDir fails. |
| Usb.UnlistableInEntry | backend/internal/disk/usb.go:155-158 | An unlistable directory inside one entry is unlistable in the whole listing. |
| Usb.EntryStep | backend/internal/disk/usb.go:162-196 | One more entry adds its files, and it is readable exactly when its subtree is. |
| Usb.CopyJob.constructor | backend/internal/disk/usb.go:136-144 | The totals are the Walk's file count and byte count, and nothing is copied yet. |
| Usb.CopyJob.Check | backend/internal/disk/usb.go:149-153 | One context check, reporting cancellation from the cancelling check onwards. |
| Usb.CopyJob.CopyOne | backend/internal/disk/usb.go:179-194 | One file is copied: the counters grow by one file and its Info() size, and onProgress gets the new counters. |
| Usb.CopyJob.CopyEntry | backend/internal/disk/usb.go:162-195 | The entry's files copied so far are a prefix of its files, and all of them on success. A failure names the next file. A cancellation comes from a cancelled check. A listing error names a directory of the entry whose ReadDir fails. |
| Usb.CopyJob.CopyRecursive | backend/internal/disk/usb.go:147-198 | The same for a directory: one check, then a listing error or the entries in order. |
| Usb.CopyJob.CopyEntries | backend/internal/disk/usb.go:162-197 | The same for the loop over a readable directory's entries. |
| Usb.CopyJob.Run | backend/internal/disk/usb.go:135-201 | Copies a prefix of the tree's files, all of them on success. A healthy tree finishes with the counters equal to the Walk totals. Cancellation bounds the files copied. A copy error names the next file due, and a listing error names the root file or a directory of the tree whose ReadDir fails. |
| Websocket.Offer | backend/internal/websocket/hub.go:86-92 | A client with room queues the event. A full client's channel is closed and the event is dropped. |
| Websocket.OfferKeepsOk | backend/internal/websocket/hub.go:86-92 | Offering keeps the per-client invariant: the written events then the queue equal the accepted history, and a closed client accepts no more. |
| Websocket.EventsOfAppend | backend/internal/websocket/hub.go:155-182 | Writing a frame adds its event to the written events, if it carries one. |
| Websocket.WriterNext | backend/internal/websocket/hub.go:155-182 | The writer sends the head of the queue, stops after a failed write, and sends a close frame and stops once the channel is closed and drained. |
| Websocket.WriterNextOk | backend/internal/websocket/hub.go:155-182 | A writer step keeps the per-client invariant. |
| Websocket.DispatchCases | backend/internal/websocket/hub.go:132-150 | An unparsable message does nothing. A register with a string role sets the role. A trigger calls the trigger. |
| Websocket.Dispatch | backend/internal/websocket/hub.go:132-150 | What readPump does with one message. `DispatchCases` states both directions for each action; `DispatchIgnoresOtherTypes` covers the other types. |
| Websocket.DispatchIgnoresOtherTypes | backend/internal/websocket/hub.go:137-150 | Messages of any other type are ignored. |
| Websocket.DispatchRegisterExample | backend/internal/websocket/hub.go:140-146 | `{"type":"register","data":{"role":"display"}}` sets the role "display". |
| Websocket.DispatchRegisterNumericRole | backend/internal/websocket/hub.go:140-146 | A register whose role is not a string is ignored. |
| Websocket.HandledCount | backend/internal/websocket/hub.go:125-130 | The reader handles messages up to, and not including, the first read error. |
| Websocket.HandledCountIsFirstError | backend/internal/websocket/hub.go:125-130 | The handled count is exactly the position of the first read error. |
| Websocket.NextRole | backend/internal/websocket/hub.go:140-146 | A message changes the role exactly when it is a register with a string role. |
| Websocket.RoleAfterIgnores | backend/internal/websocket/hub.go:120-153 | Messages that are not registers leave the role as it was. |
| Websocket.RoleAfterLastRegister | backend/internal/websocket/hub.go:120-153 | The final role is the one set by the last register message. |
| Websocket.TriggersInBound | backend/internal/websocket/hub.go:147-150 | No more triggers than messages fire, and one per message exactly when all are triggers. |
| Websocket.Kept | backend/internal/websocket/hub.go:84-94 | The clients kept by a broadcast are exactly those that had room. |
| Websocket.Offered | backend/internal/websocket/hub.go:84-94 | A broadcast offers the event to every registered client and leaves the others alone. |
| Websocket.Extended | backend/internal/websocket/hub.go:84-94 | A client's accepted history grows by the event exactly when it was registered and had room. |
| Websocket.OfferedStep | backend/internal/websocket/hub.go:86-93 | One more client in the loop adds one offer. |
| Websocket.ExtendedStep | backend/internal/websocket/hub.go:86-93 | One more client in the loop extends its history only if it had room. |
| Websocket.KeptStep | backend/internal/websocket/hub.go:86-93 | One more client in the loop is kept only if it had room. |
| Websocket.Hub.constructor | backend/internal/websocket/hub.go:48-55 | A new hub has no clients and no trigger callback. |
| Websocket.Hub.SetOnTrigger | backend/internal/websocket/hub.go:37-46 | Installs or clears the trigger callback. |
| Websocket.Hub.ClientCount | backend/internal/websocket/hub.go:57-61 | Returns the number of registered clients. |
| Websocket.Hub.Register | backend/internal/websocket/hub.go:69-73 | The client joins the registered set. |
| Websocket.Hub.CloseSend | backend/internal/websocket/hub.go:79 | Closes one client's send channel and changes nothing else. |
| Websocket.Hub.Connect | backend/internal/websocket/hub.go:106-118 | A new client with an empty 256-slot channel, an empty history and no role is registered. |
| Websocket.Hub.Unregister | backend/internal/websocket/hub.go:75-82 | A registered client is removed and its channel closed. An unknown client changes nothing. |
| Websocket.Hub.Broadcast | backend/internal/websocket/hub.go:84-94 | Every registered client with room gets the event. Every full one is closed and removed. The hub invariant is kept. |
| Websocket.Hub.OfferTo | backend/internal/websocket/hub.go:87-92 | One iteration of the broadcast loop for one client. |
| Websocket.Hub.WriterStep | backend/internal/websocket/hub.go:155-182 | One step of a client's writer, as `WriterNext`, keeping the hub invariant. |
| Websocket.Hub.ReadLoop | backend/internal/websocket/hub.go:126-152 | The loop handles the frames before the first read error. It leaves the role of the last register and counts one trigger call per trigger message when a callback is installed. |
| Websocket.Hub.HandleMessage | backend/internal/websocket/hub.go:132-150 | One message updates the role or calls the trigger, as `Dispatch` says. |
| Websocket.Hub.ReadPump | backend/internal/websocket/hub.go:120-153 | The reader's whole life: the loop's role and triggers, then, after a read error, unregistering the client. |
| App.StateNameInjective | backend/internal/app/controller.go:22-29 | The state names are pairwise distinct. |
| App.CountdownLength | backend/internal/app/controller.go:141-144 | The countdown is at least one second: the configured length, or 3 when that is below 1. |
| App.TriggerOffset | backend/internal/app/controller.go:166-175 | The camera fires at seconds * 1000 + delay ms, never before 0. |
| App.NoSleepAtZeroOffset | backend/internal/app/controller.go:186-188 | The capture goroutine sleeps exactly when the delay is above -seconds * 1000. |
| App.RunStrategy | backend/internal/app/controller.go:146-150 | The run's strategy is never empty. It is the album's stored method whenever that is present and non-empty, and "C" otherwise. |
| App.ListedStrategy | backend/internal/app/controller.go:422-425 | The listing reports the album's stored method when one is present, even an empty one, and "C" when none is. |
| App.StrategiesAgree | backend/internal/app/controller.go:146-150 | The run and the listing agree on the current album's method exactly when its stored value is not the empty string. |
| App.CountdownTicksShape | backend/internal/app/controller.go:196-208 | The countdown loop broadcasts remaining = total, total - 1, ..., 1, each with the same total. |
| App.UptimeShortReadsBack | backend/internal/app/controller.go:93-102 | Below an hour the uptime is "MM:SS", whose fields are below 60 and read back to the elapsed seconds. |
| App.FormatUptime | backend/internal/app/controller.go:93-102 | The uptime text: "HH:MM:SS" from an hour on, else "MM:SS". `UptimeShortReadsBack` and `UptimeLongReadsBack` read each form back to the elapsed seconds. |
| App.UptimeLongReadsBack | backend/internal/app/controller.go:93-102 | From an hour on it is "H…:MM:SS", whose fields read back to the elapsed seconds. |
| App.UptimeArith | backend/internal/app/controller.go:93-102 | Hours, minutes and seconds recombine to the elapsed seconds. |
| App.ClockFields | backend/internal/app/controller.go:93-102 | The colon positions of "H:MM:SS" locate its three fields. |
| App.SelectAlbumEffect | backend/internal/app/controller.go:467-495 | The current album becomes the id. A new display name is stored when the id differs from the original name. Otherwise an existing non-empty name is kept. Other names and fields are untouched. |
| App.SelectAlbum | backend/internal/app/controller.go:467-495 | The booth section after selecting an album id. `SelectAlbumEffect` states the new current album and display names; `SelectAlbumIdempotent` that selecting twice equals once. |
| App.SelectAlbumIdempotent | backend/internal/app/controller.go:467-495 | Selecting the same album twice is the same as once. |
| App.SetAlbumIdempotent | backend/internal/app/controller.go:467-495 | SetAlbum with the same name twice is the same as once. |
| App.SelectedAlbumIsProtected | backend/internal/app/controller.go:543-548 | The album just selected, under any spelling that sanitises to it, cannot be deleted. |
| App.DeleteRefusal | backend/internal/app/controller.go:543-548 | DeleteGallery refuses the "default" album and the active album, by sanitised id, and allows any other. `SelectedAlbumIsProtected` proves a just-selected album is refused. |
| App.DropAlbum | backend/internal/app/controller.go:552-556 | Deletion removes exactly that album's display name. |
| App.CountedBySuffix | backend/internal/app/controller.go:508-516 | A file counts for the gallery exactly when it is a regular, non-hidden file ending in .jpg or .jpeg in any case. |
| App.GalleryCount | backend/internal/app/controller.go:498-518 | The number of counted gallery entries. `GalleryCountBound` bounds it by the entries, with equality exactly when all count. |
| App.CountedIsListed | backend/internal/app/controller.go:508-516 | Every counted file is a listed image, and .png files are listed but not counted. |
| App.GalleryCountBound | backend/internal/app/controller.go:498-518 | The count never exceeds the entries, and equals them exactly when all count. |
| App.AlbumsOfMembership | backend/internal/app/controller.go:399-441 | An album is listed exactly when it comes from a non-reserved directory entry, with its name, method, count and size. |
| App.AlbumsOf | backend/internal/app/controller.go:399-441 | The albums ListAlbums reports, in listing order. `AlbumsOfMembership` states both directions of which directory entries become albums. |
| App.App.AlbumDir | backend/internal/app/controller.go:377-380 | The current album's directory: the photos base path joined with the sanitised current album id. The join is `Text.JoinPath`, see "Left out". |
| App.App.constructor | backend/internal/app/controller.go:48-85 | A new app is idle, with no last photo, no countdown and no events. |
| App.App.SetState | backend/internal/app/controller.go:104-114 | The state changes and a status event is broadcast. |
| App.App.Trigger | backend/internal/app/controller.go:122-137 | Outside idle and preview nothing happens. Otherwise the sequence number goes up, the state becomes countdown with its event, and a new run with that number starts. |
| App.App.GetLastPhoto | backend/internal/app/controller.go:336-341 | The remembered photo wins. Otherwise the newest photo of the listing, or nothing when the listing failed or is empty. |
| App.App.SetAlbum | backend/internal/app/controller.go:467-495 | The album is selected under its sanitised id, and the photo store moves to that album's directory. |
| App.App.DeleteGallery | backend/internal/app/controller.go:541-560 | A refused delete changes nothing. Otherwise the album directory is removed, and the display name is dropped only when that succeeded. |
| App.App.GetGalleryCount | backend/internal/app/controller.go:498-518 | A missing directory counts 0 without error. An unreadable one counts 0 with its error. Otherwise the count of gallery images. |
| App.App.ListAlbums | backend/internal/app/controller.go:399-441 | An unreadable base directory lists nothing. Otherwise the albums of its entries. |
| App.CaptureRun.constructor | backend/internal/app/controller.go:129-133 | A run is created for its sequence number, not yet started. |
| App.CaptureRun.Begin | backend/internal/app/controller.go:141-175 | The run fixes its length, strategy, delay and trigger offset from the booth config, and publishes the total. |
| App.CaptureRun.RunCountdown | backend/internal/app/controller.go:196-222 | The countdown broadcasts total down to 1, then 0, then the capturing state. |
| App.CaptureRun.CaptureFailed | backend/internal/app/controller.go:230-233 | A failed capture broadcasts the error state and the error message. |
| App.CaptureRun.ErrorHoldElapsed | backend/internal/app/controller.go:234-236 | After the error hold the app returns to idle. |
| App.CaptureRun.CaptureSucceeded | backend/internal/app/controller.go:241-242 | A captured file moves the app to processing. |
| App.CaptureRun.PreviewReady | backend/internal/app/controller.go:256-276 | The preview callback remembers the photo, enters preview and broadcasts photo_ready. |
| App.CaptureRun.Finish | backend/internal/app/controller.go:319-333 | The run returns to idle only when still in preview and no newer run began. Otherwise it changes nothing. |
| App.ErrorPath | backend/internal/app/controller.go:230-236 | A failed capture yields error, the message, then idle, and keeps the last photo. |
| App.PreviewNeverReady | backend/internal/app/controller.go:319-333 | When processing fails before the preview, the run's end leaves the app in processing, and a trigger there is refused. |
| App.RetriggerDuringPreview | backend/internal/app/controller.go:122-137 | A trigger during preview starts the next run, and the old run's end then changes nothing. |
| App.HappyPath | backend/internal/app/controller.go:139-334 | A whole successful run from idle broadcasts the full event sequence and ends idle with the new last photo. |
| Api.Clamp | backend/internal/api/handler.go:156-187 | The value is forced into [lo, hi] and kept when already inside. |
| Api.ClampIdempotent | backend/internal/api/handler.go:156-187 | Clamping twice is clamping once. |
| Api.ClampField | backend/internal/api/handler.go:156-187 | A missing field keeps its current value. A given one is clamped. |
| Api.EditBooth | backend/internal/api/handler.go:154-213 | The handler's edits to the booth section equal the specification `ApplySettings`. |
| Api.SettingsRefusal | backend/internal/api/handler.go:189-210 | The request is refused exactly when it carries a strategy that is not A-D after trimming and upper-casing. |
| Api.ApplySettings | backend/internal/api/handler.go:154-213 | postSettings' edits of the booth section. `SettingsRefusal`, `SettingsClamped` and `SettingsStrategy` state when it refuses, the clamped ranges and where the strategy is stored. |
| Api.SettingsClamped | backend/internal/api/handler.go:156-187 | Given fields land in 1-10 s, 1-30 s and -3000-1000 ms. Missing ones and the album fields are kept. |
| Api.SettingsStrategy | backend/internal/api/handler.go:189-210 | A valid strategy is stored for the request's sanitised album, or else for the current album. No other album's method changes. |
| Api.StrategyNormalizedExample | backend/internal/api/handler.go:190 | " b " is accepted as "B". |
| Api.LogsLimit | backend/internal/api/handler.go:112-118 | The limit is always positive. |
| Api.LogsLimitCases | backend/internal/api/handler.go:112-118 | A positive integer query is used. Anything else falls back to 100. |
| Api.LogsLimitOfPrinted | backend/internal/api/handler.go:112-118 | A printed positive 64-bit number is read back as itself. |
| Api.LogsLimitFallbacks | backend/internal/api/handler.go:112-118 | "", "-5" and "abc" give 100. |
| Api.ProgressEvents | backend/internal/api/handler.go:389-410 | One usb_export_progress event per progress callback. |
| Api.ExportEventsShape | backend/internal/api/handler.go:358-432 | An export broadcasts start first and exactly one terminal event last, only progress between. It ends in success exactly when mounting and copying succeed. |
| Api.ExportEvents | backend/internal/api/handler.go:358-432 | The events one export broadcasts. `ExportEventsShape` proves start first, progress only in between and exactly one terminal event last. |
| Api.CancelledCopyMessage | backend/internal/api/handler.go:412-421 | A failed copy after cancellation says "Export cancelled". Otherwise it says "Copy failed". |
| Api.Handler.constructor | backend/internal/api/handler.go:323-352 | No export is active at start. |
| Api.Handler.PostSettings | backend/internal/api/handler.go:141-234 | A malformed body or an invalid strategy gives 400 and changes nothing. Otherwise the edits apply, then the album is selected. The status is 200, or 500 when saving fails. |
| Api.Handler.HandleLogs | backend/internal/api/handler.go:111-121 | Returns the last LogsLimit(query) entries, a suffix of the buffer. |
| Api.Handler.StartExport | backend/internal/api/handler.go:323-356 | A missing field gives 400. A running export gives 409. Otherwise the guard is taken with a fresh context and the job copies `<base>/<sanitised album>/original`. |
| Api.Handler.RunExport | backend/internal/api/handler.go:358-432 | The task broadcasts its events and always releases the guard. |
| Api.Handler.CancelExport | backend/internal/api/handler.go:437-453 | With no active export it gives 409. Otherwise it cancels the context. |
| Api.Handler.Unmount | backend/internal/api/handler.go:455-503 | 400, 409, 500, 404, 500 or 200 in the source's order of checks. A success unmounts the first matching device's mount point. |
| Api.SecondExportRefused | backend/internal/api/handler.go:343-352 | A second export while one runs gets 409, and the first keeps the guard. |
| Api.UnmountDuringExport | backend/internal/api/handler.go:470-476 | Unmounting during an export always gives 409. |
| PhotoboothStore.AfterAddLog | frontend/src/stores/photobooth.ts:210-216 | The log list ends with the new entry, keeps the newest entries in order, and is capped at 200. |
| PhotoboothStore.AddLogBelowCap | frontend/src/stores/photobooth.ts:210-216 | Below the cap the entry is simply appended. |
| PhotoboothStore.AddLogAtCap | frontend/src/stores/photobooth.ts:210-216 | At the cap the oldest entry gives way. |
| PhotoboothStore.UnhandledChangesNothing | frontend/src/stores/photobooth.ts:149-208 | Unknown message types, and system_info for the mirrored fields, change nothing. |
| PhotoboothStore.LoggedEntryReachesStore | backend/internal/app/controller.go:66-72 | A log entry the backend broadcasts as a `log` event is appended to the store's log list by the capped add, and nothing else changes. |
| PhotoboothStore.SystemEventIgnored | frontend/src/stores/photobooth.ts:168-171 | The backend's "system" event is not handled by the store. |
| PhotoboothStore.ReduceBackendEvents | frontend/src/stores/photobooth.ts:151-176 | status, countdown, photo_ready and error set exactly the fields the store assigns. |
| PhotoboothStore.ReduceExportEvents | frontend/src/stores/photobooth.ts:180-206 | Export start resets the progress. Progress copies the counters. Success fills the bytes. Error records the message. |
| PhotoboothStore.ReduceAllSnoc | frontend/src/stores/photobooth.ts:149-208 | Folding one more event is one more reducer step. |
| PhotoboothStore.Reduce | frontend/src/stores/photobooth.ts:149-208 | The store's handleMessage switch on a view. `ReduceBackendEvents`, `ReduceExportEvents`, `UnhandledChangesNothing` and `LoggedEntryReachesStore` state its effect per message type. |
| PhotoboothStore.ReduceAll | frontend/src/stores/photobooth.ts:149-208 | Handling a sequence of messages in order. `ReduceAllSnoc` and `ReduceAllConcat` relate it to single steps. |
| PhotoboothStore.ReduceAllConcat | frontend/src/stores/photobooth.ts:149-208 | Folding a concatenation folds each part in turn. |
| PhotoboothStore.CountdownTicksShown | frontend/src/stores/photobooth.ts:154-157 | After the countdown ticks the store shows the last tick and the countdown state. |
| PhotoboothStore.TicksKeepRest | frontend/src/stores/photobooth.ts:154-157 | Countdown ticks touch no log, export, error or photo field. |
| PhotoboothStore.HeadKeepsRest | frontend/src/stores/photobooth.ts:151-157 | The start of a run touches no log, export, error or photo field. |
| PhotoboothStore.TailEffect | frontend/src/stores/photobooth.ts:151-167 | The end of a run leaves the store idle with the new photo and the zero tick. |
| PhotoboothStore.MirrorsHappyPath | frontend/src/stores/photobooth.ts:149-208 | The events of a successful backend run leave the store idle with the new photo and countdown (0, total), other fields untouched. |
| PhotoboothStore.MirrorsErrorPath | frontend/src/stores/photobooth.ts:172-176 | The events of a failed run leave the store idle with the error shown and the old photo still there. |
| PhotoboothStore.TriggerMessageTriggers | frontend/src/stores/photobooth.ts:285-288 | The store's trigger message is dispatched by the hub as a trigger. |
| PhotoboothStore.Store.constructor | frontend/src/stores/photobooth.ts:75-112 | The initial store state: idle, no countdown, photo, error or logs, and an inactive export. |
| PhotoboothStore.Store.AddLog | frontend/src/stores/photobooth.ts:210-216 | The log list becomes `AfterAddLog`. |
| PhotoboothStore.Store.HandleMessage | frontend/src/stores/photobooth.ts:149-208 | The store's fields become the reducer's result. |
| PhotoboothStore.Store.ErrorTimerFired | frontend/src/stores/photobooth.ts:175 | Five seconds after an error the message is cleared. |
| PhotoboothStore.Store.ExportSuccessTimerFired | frontend/src/stores/photobooth.ts:196-198 | Four seconds after success the export is inactive. |
| PhotoboothStore.Store.ExportErrorTimerFired | frontend/src/stores/photobooth.ts:202-205 | Five seconds after an export error it is inactive and the message is gone. |
| PhotoboothStore.Store.Trigger | frontend/src/stores/photobooth.ts:285-288 | Sends a trigger only over an open socket. |
| ClientModeStore.Find | frontend/src/stores/clientMode.ts:65-68 | Finds an entry with that id, or reports that no entry has it. |
| ClientModeStore.ModesDistinct | frontend/src/stores/clientMode.ts:22-59 | The table has six entries with distinct ids. |
| ClientModeStore.FindTotal | frontend/src/stores/clientMode.ts:22-68 | Every mode has exactly one entry, and the lookup finds it. |
| ClientModeStore.ModeCapabilities | frontend/src/stores/clientMode.ts:22-59 | Only the gallery mode shows the gallery. Only the two buzzer modes show the buzzer. |
| ClientModeStore.ModeIdInjective | frontend/src/stores/clientMode.ts:4-10 | The frontend's mode ids are pairwise distinct. |
| ClientModeStore.Store.constructor | frontend/src/stores/clientMode.ts:61-64 | No mode is selected at start. |
| ClientModeStore.Store.SelectMode | frontend/src/stores/clientMode.ts:65-68 | The mode and its table entry are selected together. |
| ClientModeStore.Store.ClearMode | frontend/src/stores/clientMode.ts:70-73 | Both are cleared together. |
| Composables.TapStep | frontend/src/composables/useExitLock.ts:11-24 | A tap counts up, and the tenth unlocks and resets the count. |
| Composables.AfterTaps | frontend/src/composables/useExitLock.ts:11-24 | n taps with no timeout between them. `TapsFromZero` gives the count and lock state after any n taps. |
| Composables.TapsFromZero | frontend/src/composables/useExitLock.ts:11-24 | n taps from count k leave (k + n) mod 10, and unlock exactly when k + n reaches 10. |
| Composables.TenTapsUnlockNineDoNot | frontend/src/composables/useExitLock.ts:3-24 | Ten taps unlock. Nine do not. |
| Composables.TapsKeepUnlocked | frontend/src/composables/useExitLock.ts:11-24 | Taps never lock again. |
| Composables.ExitLock.constructor | frontend/src/composables/useExitLock.ts:6-9 | Locked, count 0, no timer. |
| Composables.ExitLock.Tap | frontend/src/composables/useExitLock.ts:11-24 | One tap as `TapStep`, with the inactivity timer restarted. |
| Composables.ExitLock.TimeoutFired | frontend/src/composables/useExitLock.ts:16-18 | Three seconds without a tap reset the count and keep the lock state. |
| Composables.ExitLock.Lock | frontend/src/composables/useExitLock.ts:26-29 | Locked again, count 0. |
| Text.ToLower | backend/internal/config/config.go:174 | Lower-casing keeps the length and maps each character by ASCII lower-casing. |
| Text.TrimSpace | backend/internal/config/config.go:174 | strings.TrimSpace: removes leading and trailing white space in the unicode.IsSpace sense. It leaves a suffix of a prefix with no space at either edge. |
| Text.TrimSpaceKeepsEdges | backend/internal/config/config.go:174 | A string whose first and last characters are not white space is unchanged by trimming. |
| Text.TrimSpaceNoSpace | backend/internal/config/config.go:174 | A string without white space is unchanged by trimming. |
| Text.Ext | backend/internal/storage/photos.go:70 | filepath.Ext: the suffix from the last dot of the final path element, or nothing. |
| Text.ExtShape | backend/internal/storage/photos.go:70 | An extension is empty or a suffix of the path that starts with its only dot and holds no `/`. |
| Text.ExtOfTail | backend/internal/storage/photos.go:70 | A path ending in "." + x, with no dot or `/` in x, has extension "." + x. |
| Text.ZeroPadValue | backend/internal/app/controller.go:93-102 | The `%02d` rendering reads back to the number it printed. |
| Text.NatToStringValue | backend/internal/app/controller.go:93-102 | The decimal rendering of a number reads back to that number. |
| Text.Atoi | backend/internal/api/handler.go:114 | strconv.Atoi: an optional sign and at least one digit and nothing else, inside the 64-bit range, else no number. |
| Text.AtoiNatToString | backend/internal/api/handler.go:114 | Atoi reads back every non-negative 64-bit number printed in decimal. |

## Left out

- Concurrency: goroutines, mutexes and channels are sequential steps. The hub's `Run` select loop is split into `Register`, `Unregister` and `Broadcast`. The race on `lastPhoto`, written without the lock in the preview callback, is not modelled.
- Time: sleeps, tickers and `setTimeout` become steps the environment takes. Timestamps and "now" are parameters. The 30-second keep-alive ticker and the 2-second error hold and preview display lengths (including the preview fallback of 5 s) and the 3-second exit-lock timeout are durations only and are not modelled.
- I/O: directory listings, file stats, gphoto2, lsblk, mount and umount, copyFile and MkdirAll are parameters giving their outcome. JSON decoding is a parameter (`Option` of the decoded request, or a parsed `Json` value).
- Api.ProgressEvents: the ETA is floating-point arithmetic over wall-clock time, so it is passed in with each report and not computed.
- Integer widths: Go's `int`/`int64` counters and sizes are unbounded `nat`/`int`. Only `strconv.Atoi`'s 64-bit range is modelled, in `LogsLimit`.
- Text.ToLower: case mapping is ASCII-only. Go's `strings.ToLower` also maps non-ASCII letters, so such letters reach the sanitiser's replacement step unchanged here. `TrimSpace` follows Go's `unicode.IsSpace` in full.
- Text.JoinPath: joins two path parts with one `/` but leaves out filepath.Join's lexical Clean. A trailing `/`, a `.` or `..` element and duplicate slashes are kept as written. This affects the paths built by `Api.ExportDestination` (the raw album name under the mount point), `Api.Handler.StartExport` (the source directory), `App.App.SetAlbum` and `App.App.AlbumDir` (the album directory), `App.App.DeleteGallery` (the removed directory) and `Camera.Controller.Capture` (the capture target).
- Storage.Manager.List: `sort.Slice` is not stable, so the model proves "some newest-first permutation" rather than one particular order for equal timestamps.
- Config.Config.Load: reading and JSON-decoding the files is a parameter (`decoded`, which file was found). `Save` is not modelled; its outcome is the `saveOk` parameter of `PostSettings`.
- App: `SetDataDir`, camera `SetStrategy`, `PrepareCapture`, `VerifyLastCapture`, the strategy-B RAW download, `EnsureAlbumDirs`/`EnsureDirs`, `EmptyGallery`, `GetGallerySize` (a `sizeOf` parameter), the camera-info refresh loop, `GetState`/`GetCountdown` and all logger calls made by the controller and the handlers are left out. The image processor (backend/internal/imaging/processor.go) is the environment, whose preview callback is `PreviewReady`.
- App.App.ListAlbums: the photo count and size of each album are parameters (`countOf`, `sizeOf`) rather than recomputed from each album's directory.
- Websocket: the JSON encoding of events on the wire is not modelled. Roles are kept in a map beside the client set rather than as a field of the client.
- PhotoboothStore: connect, reconnect, register, the fetch helpers and the settings requests are left out. The camera and disk contents of system_info are not mirrored. A payload without the shape its type calls for is ignored, whereas JavaScript would store `undefined`.
- ClientModeStore: mode ids are an enumeration, so an unknown id string cannot reach `selectMode` (TypeScript's type forbids it too).
- handleStatus, handlePhotos, the gallery and legacy endpoints, Wi-Fi, DNS, the disk usage helpers and `main.go` are not part of this model.
