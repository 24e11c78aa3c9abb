# quasar BitTorrent service — a Dafny model

This project models the decision rules inside quasar's BitTorrent service
(`bittorrent/service.go`), the component that wraps a libtorrent session for
the Kodi add-on. Engine calls, goroutines and file I/O are replaced by plain
values: torrent status snapshots come in as records, and the settings pack
the service hands the engine is a value that the model builds.

The model has seven modules:

- `Seeding` (seeding.dfy) covers one tick of the download-progress loop.
  - The classification loop splits torrents into active (progress below 100)
    and finished.
  - It checks the seeding limits of finished torrents in a fixed order:
    seeding time, then time ratio, then share ratio. The first limit reached
    pauses the torrent.
  - Both ratios are integer percentages with zero-denominator guards.
  - The rotating cursor chooses what the progress dialog shows: one torrent,
    or the "Total" mean.
- `Settings` (settings.dfy) is the configurator's vocabulary.
  - It holds the configuration record and the engine setting names, grouped
    by the part of `configure` that writes them.
  - It holds the settings pack and the libtorrent enumeration values used.
  - It has the IP type-of-service constants and the DHT bootstrap string.
- `Service` (service.dfy) has the `BTService` class.
  - Its fields are the configuration, the settings pack, the progress dialog
    and the cursor.
  - Its methods are the constructor, `Configure`, `StartServices`,
    `StopServices`, `Reconfigure`, `Tick` and `ShowProgress`, the display
    half of a tick. They are proved against
    predicates that say what each part of `configure` leaves in the pack.
- `Resume` (resume.dfy) covers resume persistence.
  - The trigger that picks handles for a resume save.
  - The `<hex>.fastresume` file name.
  - The tracker flattening and magnet link built from a resume record at
    startup. The magnet link follows BEP 9: `magnet:?xt=urn:btih:<hex>&tr=...`.
- `Hex` (hex.dfy) is lower-case hexadecimal encoding, with a decoder as its
  inverse.
- `Alerts` (alerts.dfy) maps an engine alert's category bits to a log level.
- `Wrappers` (wrappers.dfy) defines `Option`.

The settings pack behaves as one map from setting name to value, where the
last write wins. This is `Settings.SetThenGet`. The pack is stored as one map
per group of setting names (fixed tuning, limits, encryption, proxy,
discovery services). That lets each part of `configure` be stated and proved
over its own group, and lets "nothing else changes" be stated as equality of
the other groups. `Key.Name()` gives each key's libtorrent setting name.

Some behaviour of the code worth spelling out:

- **Cursor order.** The code (service.go:533-542) shows the torrent under
  the cursor while the cursor is below the active count. So the first tick
  shows the first torrent, and "Total" follows the last one
  (`Seeding.RotationCycle`, `Seeding.ThreeTorrentRotation`).
- **Time ratio with a short downloading time.** When the downloading time is
  1 or less the code (service.go:505-511) sets the ratio to 0 and still
  compares it with the limit. The limit is positive, so no pause happens.
- **Peer type of service.** Configure writes the constant named low cost,
  whose value is 16; RFC 1349 reads that byte as "minimize delay" (see
  Findings).
- **Dialog after stopping.** `stopServices` closes the dialog but keeps the
  reference, so the model's dialog can be `Closed` as well as `Absent` or
  `Showing`.

## Model

| member | source | states |
|---|---|---|
| Seeding.TimeRatio | bittorrent/service.go:505-511 | the time ratio is 0 when the downloading time (active minus finished) is at most 1; otherwise it is the integer quotient of 100 × finished by the downloading time, bounded above and below |
| Seeding.ShareRatio | bittorrent/service.go:518-523 | the share ratio is 0 when nothing was downloaded, whatever was uploaded; otherwise it is the integer quotient of 100 × upload by download, bounded above and below |
| Seeding.TimeRatioLimitReached | bittorrent/service.go:505-516 | a positive time-ratio limit is reached exactly when the downloading time exceeds 1 and 100 × finished ≥ limit × downloading time; a downloading time of at most 1 never trips it |
| Seeding.ShareRatioLimitReached | bittorrent/service.go:518-528 | a positive share-ratio limit is reached exactly when something was downloaded and 100 × upload ≥ limit × download |
| Seeding.VerdictByLimits | bittorrent/service.go:495-529 | in division-free terms, each limit pauses exactly when it is configured, reached, and no earlier limit in the order seed time, time ratio, share ratio was reached; no pause exactly when none is reached |
| Seeding.ShareRatioAfterTimeRatio | bittorrent/service.go:503-529 | a torrent under its time-ratio limit but over its share-ratio limit is paused for the share ratio |
| Seeding.CheckLimits | bittorrent/service.go:495-529 | the limit checks, made in the loop's order with early exit, return exactly the verdict |
| Seeding.Verdict | bittorrent/service.go:495-529 | a limit of 0 or less never pauses; the time ratio pauses only after a downloading time above 1, the share ratio only after something was downloaded; with no limit configured nothing is paused |
| Seeding.ActiveOf | bittorrent/service.go:476-494 | every considered torrent with progress below 100 is listed with its name and progress, and every listed entry comes from such a torrent; the list is no longer than the statuses |
| Seeding.PausesOf | bittorrent/service.go:476-531 | at most one pause per status, each naming an index of the statuses |
| Seeding.PausesSound | bittorrent/service.go:474-531 | every pause names a valid, non-paused finished torrent with metadata, for the first limit it reached |
| Seeding.PausesOrdered | bittorrent/service.go:474-531 | pauses come in input order, so no torrent is paused twice in one tick |
| Seeding.PausesComplete | bittorrent/service.go:474-531 | every considered finished torrent that reached a limit is paused |
| Seeding.ActiveOfAppend | bittorrent/service.go:474-494 | the active list keeps input order: it distributes over concatenation of the statuses |
| Seeding.SessionPausedIsIdle | bittorrent/service.go:481-484 | while the session is paused nothing is active and nothing is paused |
| Seeding.MeanBelowComplete | bittorrent/service.go:533-535 | the "Total" percentage, the integer mean of the active torrents, is below 100 |
| Seeding.Visit | bittorrent/service.go:476-530 | one turn of the loop appends the status to the active list (and its progress to the sum) exactly when it is considered and below 100, and appends its pause exactly when it is considered, finished and over a limit |
| Seeding.Scan | bittorrent/service.go:470-531 | the classification loop yields exactly the active list, their summed progress, and exactly the pauses of the specification |
| Seeding.Rotate | bittorrent/service.go:533-542 | below the active count the cursor shows that torrent and advances by exactly one; at or past it (also when the active list has shrunk since the last tick) it shows the "Total" mean and resets to 0; the new cursor never exceeds the active count |
| Seeding.RotationFrom | bittorrent/service.go:533-542 | from cursor c the next n − c + 1 ticks show torrents c..n−1 in order and then "Total", ending with the cursor at 0 |
| Seeding.RotationCycle | bittorrent/service.go:533-542 | from a fresh cursor, n active torrents give a cycle of n + 1 ticks: every torrent in order, then "Total", and the cursor is back at 0 |
| Seeding.ThreeTorrentRotation | bittorrent/service.go:533-542 | torrents at 10%, 50% and 90% are shown as A, B, C, then "Total" at 50%, then A again |
| Settings.SetThenGet | bittorrent/service.go:173-268 | a write is read back under its own key and every other key reads as before, so the last write wins |
| Settings.EmptyPackHasNothing | bittorrent/service.go:167 | a new settings pack holds no setting |
| Settings.IpTos | bittorrent/service.go:27-33 | each type-of-service class's byte selects that class under RFC 1349 |
| Settings.IpTosAsWritten | bittorrent/service.go:27-33 | each constant of the block as written is a byte RFC 1349 assigns, and the default, reliability and throughput constants select their own class |
| Settings.TosBlockSwapsDelayAndCost | bittorrent/service.go:27-33 | the constant named low cost is 16, which RFC 1349 reads as minimize delay, and the one named low delay reads as minimize cost |
| Settings.PositiveOrZero | bittorrent/service.go:205-232 | a configured limit is kept when positive and becomes the engine's 0 otherwise |
| Settings.BootstrapNodes | bittorrent/service.go:302 | the bootstrap string lists every router as host:6881, comma-separated; an empty router list would give the bare ":6881" |
| Settings.BootstrapNodesAreHostPorts | bittorrent/service.go:302 | joining a non-empty router list with ":6881," and appending ":6881" equals joining the host:6881 entries with "," |
| Service.FixedTuning | bittorrent/service.go:173-203 | the fixed tuning carries the user agent, and its peer type-of-service byte is 16, which RFC 1349 reads as "minimize delay" rather than the low-cost byte |
| Service.DefaultSettings | bittorrent/service.go:167-203 | the unconditional writes leave exactly the fixed tuning (peer type of service 16, as written), every limit at 0 with the fixed-slots choker, and no encryption, proxy or discovery setting |
| Service.LimitSettings | bittorrent/service.go:205-232 | each limit holds its positive configured value or 0; rate limits apply only when not deferred until after buffering, and a positive upload limit selects the bittyrant choker; nothing outside the limits changes |
| Service.ConnectionLimitSetting | bittorrent/service.go:205-209 | the connection limit is overwritten only when positive; no other setting changes |
| Service.RateLimitSettings | bittorrent/service.go:211-222 | the download and upload limits are written only when not deferred and positive, and the choker is bittyrant exactly when an upload limit is written |
| Service.SeedingLimitSettings | bittorrent/service.go:224-232 | each seeding limit is written only when positive; no other setting changes |
| Service.EncryptionSettings | bittorrent/service.go:234-250 | policy 0 or less writes nothing; policy 2 forces RC4 both ways and prefers it; any other positive policy writes the disabled policy with both levels allowed |
| Service.ProxySettingsFor | bittorrent/service.go:252-270 | without a proxy nothing is written; with one the type is shifted by one and all traffic is forced through it; the I2P settings are written exactly when the shifted type is I2P SAM |
| Service.ProxyConnectionSettings | bittorrent/service.go:254-263 | proxy type + 1, address and credentials are written, the four connection flags are true, and no I2P setting exists |
| Service.I2PSettings | bittorrent/service.go:264-268 | the I2P bridge takes the proxy's address, and of the two writes to allows_i2p_mixed the later one, true, is what remains |
| Service.WithServices | bittorrent/service.go:296-337 | starting or stopping the discovery services changes no setting outside them |
| Service.WithServicesIdempotent | bittorrent/service.go:296-337 | starting services twice is starting them once, and likewise for stopping |
| Service.ServiceSettingAfter | bittorrent/service.go:296-337 | key by key: LSD always takes the new state; DHT, UPnP and NAT-PMP take it unless disabled; the bootstrap routers are written only when an enabled DHT starts; everything else reads as before |
| Service.ServicesFromNone | bittorrent/service.go:296-313 | starting services on a pack without discovery settings writes exactly the flags the configuration calls for, and nothing for a disabled service |
| Service.ConfiguredOutsideServices | bittorrent/service.go:166-274 | whether a pack is configured does not depend on its discovery settings |
| Service.StartedFromConfigured | bittorrent/service.go:159-164 | starting services on a freshly configured pack keeps it configured and sets the flags the configuration calls for |
| Service.StopUndoesStart | bittorrent/service.go:296-337 | stopping after starting turns off exactly what starting turned on, leaves disabled services' flags as they were, and changes nothing else |
| Service.BTService.constructor | bittorrent/service.go:121-151 | a new service is configured under its configuration (with the peer type of service 16 that configure writes), with no discovery setting, no dialog and the cursor at 0 |
| Service.BTService.Configure | bittorrent/service.go:166-274 | a fresh pack holding exactly what the configuration calls for, with no discovery setting |
| Service.BTService.StartServices | bittorrent/service.go:296-316 | the pack becomes the old pack with the discovery services turned on as the configuration allows |
| Service.BTService.StopServices | bittorrent/service.go:318-340 | a held dialog is closed but kept; the pack becomes the old pack with the discovery services turned off as the configuration allows |
| Service.BTService.Reconfigure | bittorrent/service.go:159-164 | after stop, replace, configure and start, the pack is exactly the new configuration's, with its discovery flags on and nothing left over |
| Service.BTService.Tick | bittorrent/service.go:456-554 | a paused session drops a held dialog and does nothing else; otherwise the tick pauses exactly the specified torrents and shows the cursor's view, creating the dialog lazily, or drops the dialog when nothing is active |
| Service.BTService.ShowProgress | bittorrent/service.go:533-551 | with torrents active the dialog shows the cursor's view (a torrent, or the "Total" mean) and is created only if absent; with none active any held dialog is dropped and the cursor is kept |
| Resume.SaveRequests | bittorrent/service.go:352-364 | resume saves are requested, in order and once each, exactly for valid handles with metadata that need one |
| Resume.ResumeFileName | bittorrent/service.go:385-390 | the file name is two lower-case hex digits per info-hash byte followed by `.fastresume` |
| Resume.FileNameRoundTrip | bittorrent/service.go:384-390 | the resume file name `<hex>.fastresume` names the info-hash it was written for |
| Resume.FlattenTrackers | bittorrent/service.go:418-423 | the nested append loop produces the tiers concatenated in order |
| Resume.RegroupFlattened | bittorrent/service.go:418-423 | flattening loses and reorders nothing: cutting the flat list by the tier sizes gives the tiers back |
| Resume.FlattenedKeepsEveryTracker | bittorrent/service.go:418-423 | every tracker occurs in the flat list exactly as often as in the tiers together |
| Resume.MagnetUri | bittorrent/service.go:418-428 | the link starts with `magnet:?xt=urn:btih:`, then the hex info-hash, then '&', then the `tr=` query of the flattened trackers |
| Resume.TrackerQueryFields | bittorrent/service.go:424-428 | when escaping never yields '&', the query splits at '&' into one `tr=` field per tracker of the flattened tiers, in order |
| Resume.ReloadedMagnetNamesInfoHash | bittorrent/service.go:384-428 | the magnet link rebuilt from a resume record has the record's info-hash as its exact topic, the same hash its file name gives |
| Hex.DigitValue | bittorrent/service.go:385 | the inverse that specifies the digit encoding (the program itself has no decoder): a character has a nibble value exactly when it is a lower-case hex digit, and that digit encodes the value |
| Hex.Encode | bittorrent/service.go:385 | the encoding has two lower-case hex digits per byte |
| Hex.Decode | bittorrent/service.go:427 | the inverse that specifies the encoding of the magnet topic (the program itself has no decoder): a successful decoding has half as many bytes as the string has characters |
| Hex.DecodeEncode | bittorrent/service.go:385 | decoding an encoded info-hash gives the info-hash back |
| Hex.EncodeInjective | bittorrent/service.go:385 | two info-hashes with the same hex string are equal |
| Alerts.LevelOf | bittorrent/service.go:605-613 | error exactly when the error bit is set; debug exactly when the debug bit is set without the error bit; warning exactly when the performance bit is set without the other two; notice exactly when none of the three is set |
| Alerts.LevelIgnoresOtherBits | bittorrent/service.go:605-613 | category bits other than the three tested never change the level |
| Alerts.ErrorBitWins | bittorrent/service.go:605-606 | the error bit outranks the others |

## Left out

- Engine calls are not modelled: creating the session, applying the pack,
  reading handles and statuses, pausing, saving and loading state, adding
  torrents, and waiting for and popping alerts. Statuses come in as records.
  The pause a tick decides is returned as a list of (index, reason) rather
  than carried out.
- Goroutines, channels, the alert broadcaster and `Close` are left out
  because they concern concurrency. So are the save-resume and progress
  tickers: each tick is one call.
- File and OS I/O is left out: creating the torrents folder, globbing and
  reading resume files, writing resume blobs, and the early error return in
  `loadFastResumeFiles`.
- Bencode and the query escaping of `url.Values` are library code. The
  escaping is a function parameter of `Resume.MagnetUri`. `NewTorrent(...).Magnet()`
  is not part of this model.
- `setPlatformSpecificSettings` is not part of this model. In the model it
  writes nothing, so the connection limit stays 0 when none is configured.
- `util.UserAgent()` is a parameter. Logging, `tmdb.CheckApiKey` and the
  dialog's heading text are left out. The dialog is reduced to
  absent/showing/closed plus the returned (percent, title) view.
- Progress is taken as an integer percent. The float conversion
  `int(float64(progress) * 100)` is left out.
- The progress tick and the resume loader are started only when the
  configuration sets `BackgroundHandling` (service.go:145-148). The
  configuration record carries the flag, but `Service.BTService.Tick` does
  not test it: it models one tick of a loop that has been started.
- Service.BTService.Tick: the session's paused state is one snapshot per
  tick. The source asks the engine again for every torrent, so a session
  paused in mid-tick is not captured.
- Seeding.TimeRatio: does not model overflow of Go's `int` when the
  finished time is multiplied by 100; the model's integers are unbounded.
  Times are taken as non-negative, where Go's truncating division and
  Dafny's agree.
- Seeding.ShareRatio: does not model overflow of the `int64` upload counter
  when it is multiplied by 100. Byte counters are taken as non-negative.
- Alerts.LevelOf: categories are modelled as 32-bit vectors. The source's
  `int` is wider, but only bits 0, 5 and 9 are tested.
- The `alert_mask` write in `alertsConsumer` is left out, because it comes
  with engine plumbing outside the configuration path.

## Findings

| source | as written | input that shows it | evidently intended | confidence | as-written member | corrected member |
|---|---|---|---|---|---|---|
| bittorrent/service.go:27-33, 187 | `iota` already counts the first line of the block, so `ipToSLowCost = 1 << iota` is 16 (0x10), which RFC 1349 defines as "minimize delay"; `ipToSLowDelay` is 2, "minimize monetary cost" | `peer_tos` is written as 16 on every configure | the RFC 1349 low-cost byte 0x02 (IPTOS_LOWCOST), as the name says | not executed | Settings.TosBlockSwapsDelayAndCost | Settings.IpTos |

The configuration path of the model writes the byte as written, 16
(`Service.FixedTuning`, whose contract shows that RFC 1349 reads it as
"minimize delay"). `Settings.IpTos` is the corrected table: each class's
byte selects that class.
