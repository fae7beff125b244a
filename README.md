# HostImageBackup core in Dafny

HostImageBackup backs up the images a user keeps on hosting services (an
Alibaba Cloud OSS bucket, SM.MS, and others). It can also upload local
images to them. This project models the decision logic of that tool once
the network and the disk are replaced by inputs:

- **Backup service** (`Backup`, `Filenames`): `service.py`.
  - The file-name sanitiser.
  - The retrying download.
  - The per-image bookkeeping of `backup_images`: skip, schedule, collect, record and return.
  - Single and batch upload.
  - Provider lookup and listing.
- **Provider manager** (`Registry`): `provider_manager.py`. An
  insertion-ordered name-to-class table with one-shot, first-wins
  entry-point discovery and an overwriting `register_provider`; an
  instance cache; and the ordered validation chain of `get_provider`.
- **Configuration manager** (`Config`): `config_manager.py`. Loading a
  parsed document: defaults, provider sections restricted to the supported
  names, and strict settings. Also the data `save_config` writes, the
  provider lookups and the merge-update of one provider.
- **Providers** (`Oss`, `Sms`): `providers/oss.py` and `providers/sms.py`.
  The OSS extension filter and limit over the bucket's object stream and
  its image count; the SM.MS page-by-page listing with its early stops and
  limit; and how each provider reports download, connection and count
  outcomes.
- **Command layer** (`Cli`): `cli.py`. Which providers `backup-all` runs
  and its exit status; the unknown-provider check of `backup`, `test`,
  `info`, `upload` and `upload-all`; the candidate files of `upload-all`;
  and the status column of `list`.

Supporting modules:

- `Wrappers`: Option and Result.
- `PyDicts`: Python's insertion-ordered `dict` as a list of entries.
- `Paths`: pathlib's `name`, `suffix` and `stem`, and ASCII `lower()`.
- `Images`: `ImageInfo`, a fully consumed listing, and the "truthy limit" rule.

Modelling choices:

- **Inputs instead of I/O.** Everything the code asks of the outside world
  is an input of the model:
  - a provider's listing is the sequence of objects or pages the service
    answers with, plus whether the next request raises;
  - each scheduled download has a script of call outcomes;
  - the files a download writes, or an upload reads, map to their hash and
    size;
  - the destination names already on disk form a set.
- **The metadata store** is an append-only log of `Record`s, one per
  `record_backup` call.
- **Classes and loops stay.** Objects whose fields the code updates are
  Dafny classes:
  - `BackupService`, whose history is its log;
  - `ProviderManager`, with its table, discovery flag and cache;
  - `ConfigManager`, with its loaded configuration.

  Each loop of the source is a method whose loop invariants tie it to a
  specification function. The properties are proved as lemmas about those
  functions.
- **OSS timestamps.** `list_images` renders an object's `last_modified`
  with `isoformat()`. The oss2 SDK reports it as an integer, which has no
  such method. `Oss.Timestamp` has three cases: falsy, a datetime (given by
  its rendering), and a value without `isoformat`. Building the record of an
  image with the last case raises, and that ends the listing inside its
  `try`.
- **Connection tests.** What each provider's `test_connection` meets on the
  network is one input, `Backup.Probe`:
  - whether OSS's `get_bucket_info` raises;
  - SM.MS's reply to `GET /profile`;
  - the answer of the providers whose modules are not part of this model.
- **Argument checks.** typer's `exists=True` checks on the `upload` file and
  the `upload-all` directory run before the command body. A failed check
  exits with click's usage-error status 2 (`Cli.UsageError`).

## Model

| member | source | states |
|---|---|---|
| Filenames.IllegalCharsListsIllegal | src/host_image_backup/service.py:312 | the replaced characters are exactly `<>:"/\|?*`, and `_` is not among them |
| Filenames.Replace | src/host_image_backup/service.py:314 | `str.replace` of one character keeps the length and changes exactly the occurrences of that character |
| Filenames.ReplaceEachPointwise | src/host_image_backup/service.py:312-314 | the replacement loop keeps the length and maps each character to `_` if it is listed, and to itself otherwise |
| Filenames.Replaced | src/host_image_backup/service.py:311-314 | after the loop, position by position, an illegal character is `_` and every other character is unchanged |
| Filenames.Prefix | src/host_image_backup/service.py:322 | `s[:n]` is a prefix of `s` of length min(n, len(s)) |
| Filenames.CapKeepsCharacters | src/host_image_backup/service.py:317-325 | the 255-character cap only drops characters and never introduces one |
| Filenames.SanitizedIsLegal | src/host_image_backup/service.py:309-327 | a sanitised name contains none of the nine illegal characters |
| Filenames.ShortNameKeepsLength | src/host_image_backup/service.py:317 | a name of at most 255 characters is only character-replaced and keeps its length |
| Filenames.LongNameIsCut | src/host_image_backup/service.py:317-325 | a longer name is cut to exactly 255 characters: a prefix of its stem followed by its suffix when the suffix is shorter than 255, and the first 255 characters of the stem otherwise |
| Filenames.SanitizedIsShort | src/host_image_backup/service.py:309-327 | no sanitised name is longer than 255 characters |
| Filenames.SanitizeIdempotent | src/host_image_backup/service.py:309-327 | sanitising twice gives what sanitising once gives |
| Filenames.Sanitize | src/host_image_backup/service.py:309-327 | `_sanitize_filename`: the nine-character replacement, then the 255-character cap on stem and suffix. It has no `ensures` of its own; what it guarantees is stated by `SanitizedIsLegal`, `SanitizedIsShort`, `ShortNameKeepsLength`, `LongNameIsCut` and `SanitizeIdempotent` |
| Backup.RetrySucceeds | src/host_image_backup/service.py:287-307 | the reference definition `DownloadWithRetry` is proved against: some call within the `retry_count + 1` budget answers True (calls past the script raise) |
| Backup.DownloadWithRetry | src/host_image_backup/service.py:279-307 | calls at most `retry_count + 1` times and stops at the first True; it returns True exactly when some allowed call succeeds, and False only after every allowed call returned False or raised |
| Backup.SkipLog | src/host_image_backup/service.py:160-172 | one skip record per skipped image |
| Backup.ResultLog | src/host_image_backup/service.py:191-262 | one result record per collected download |
| Backup.SuccessCount | src/host_image_backup/service.py:194-195 | the success count never exceeds the number of downloads collected |
| Backup.CountStatus | src/host_image_backup/service.py:160-262 | a status count never exceeds the number of records |
| Backup.BatchSuccesses | src/host_image_backup/service.py:565-570 | a batch counts at most one success per file |
| Backup.BackupService.constructor | src/host_image_backup/service.py:29-44 | the service starts with the given configuration and log, and with the five built-in provider classes in order |
| Backup.BackupService.GetProvider | src/host_image_backup/service.py:46-67 | an instance exactly when the name is configured, enabled and valid and has a class, and then it is that class built from that configuration |
| Backup.BackupService.ListProviders | src/host_image_backup/service.py:69-71 | the names of the class table, which are oss, cos, sms, imgur and github in this order |
| Backup.BackupService.BackupImages | src/host_image_backup/service.py:96-277 | appends exactly the run's records and returns its verdict; with a provider, a pool size of at least 1 and a complete listing, skipped + succeeded + failed equals the number of listed images, and it returns True exactly when nothing failed |
| Backup.BackupService.BackupWith | src/host_image_backup/service.py:109-277 | the run once the provider is resolved: the same log, verdict and counters as `BackupImages`; a `max_concurrent_downloads` below 1 makes the executor raise (service.py:147-149), so the run returns False with no record and zero counters |
| Backup.BackupService.Enumerate | src/host_image_backup/service.py:153-188 | the enumeration loop appends one skip record per skipped image in listing order, schedules the others in order and counts the skips |
| Backup.BackupService.EnumerateNext | src/host_image_backup/service.py:155-188 | one turn of that loop: the image is either skipped, with a record and a count, or scheduled |
| Backup.BackupService.Collect | src/host_image_backup/service.py:191-264 | the collecting loop appends one result record per scheduled image in submission order and counts the successes; successes plus errors equal the number of tasks |
| Backup.BackupService.CollectNext | src/host_image_backup/service.py:192-262 | one turn of that loop: one record, and exactly one of the two counters rises |
| Backup.BackupService.UploadImage | src/host_image_backup/service.py:408-500 | appends exactly the upload's records and returns its verdict |
| Backup.BackupService.UploadWith | src/host_image_backup/service.py:437-500 | the upload once the provider is resolved |
| Backup.BackupService.UploadBatch | src/host_image_backup/service.py:502-584 | no provider: nothing is recorded and False is returned; otherwise one upload per file with prefix+name as remote path, successes plus errors equal the number of files, and True exactly when there is no error |
| Backup.BackupService.UploadEach | src/host_image_backup/service.py:557-576 | the batch loop appends the files' records in order and counts each file once |
| Backup.BackupService.UploadNext | src/host_image_backup/service.py:558-576 | one turn of the batch loop: one file's records, and exactly one of the two counters rises |
| Backup.PartitionSizes | src/host_image_backup/service.py:153-188 | every listed image is either skipped or scheduled |
| Backup.EnumerationStep | src/host_image_backup/service.py:160-188 | one image extends exactly one of the two sequences, and the skip log grows by its record |
| Backup.ResultLogStep | src/host_image_backup/service.py:191-262 | one collected download adds exactly its own record |
| Backup.CompletedRun | src/host_image_backup/service.py:153-273 | with a provider, a pool size of at least 1 and a complete listing, the run is the skip records followed by the result records, and its verdict is "every download succeeded" |
| Backup.BatchStep | src/host_image_backup/service.py:557-570 | one file of a batch adds its upload's records and one success when it uploads |
| Backup.SuccessCountFull | src/host_image_backup/service.py:191-273 | the success count is full exactly when every scheduled download succeeds |
| Backup.CountStatusAppend | src/host_image_backup/service.py:163-260 | counting statuses distributes over appending records |
| Backup.SkipLogCounts | src/host_image_backup/service.py:160-172 | the skip log holds only skipped records, one per skipped image |
| Backup.ResultLogCounts | src/host_image_backup/service.py:191-262 | the result log holds one success per successful download, one failure per other download, and no skip |
| Backup.OneRecordPerImage | src/host_image_backup/service.py:153-262 | with a provider, a pool size of at least 1 and a complete listing, there is exactly one record per listed image; skipped + success + failed records equal the listed images, and the counts agree with skips and successes |
| Backup.SkipDecision | src/host_image_backup/service.py:159-178 | an image is skipped exactly when `skip_existing` is set and its destination exists; together the skipped and scheduled images are a permutation of the listing |
| Backup.RecordOrder | src/host_image_backup/service.py:153-262 | with a provider and a pool size of at least 1, the skip records, with hash "" and size 0, come first in listing order. The result records follow in submission order: a failure has hash "" and size 0, and a success has the written file's hash and size |
| Backup.OkIffNoFailure | src/host_image_backup/service.py:105-277 | True exactly when there is a provider, the pool size is at least 1, the listing completes and no record failed; without a provider or with a pool size below 1 nothing is recorded; a raising listing keeps only the skip records |
| Backup.UploadRecord | src/host_image_backup/service.py:433-500 | no record exactly when there is no provider, the file is missing or the upload raises; otherwise one upload record with the file's hash and size, status success exactly when it succeeded, and remote path `remote_path or name` |
| Backup.BatchRecords | src/host_image_backup/service.py:557-576 | at most one record per file, success records equal the success count, no skip record, and every record uploads one of the files with remote path prefix+name when the prefix is non-empty |
| Backup.BatchItemRecord | src/host_image_backup/service.py:559-570 | one file writes at most one record, for that file, with the batch's remote path and a success exactly when it uploads |
| Backup.BatchCounts | src/host_image_backup/service.py:557-576 | a batch's log has at most one record per file, as many successes as the count, and no skip |
| Backup.BatchLength | src/host_image_backup/service.py:557-576 | a batch's log has at most one record per file |
| Backup.BatchSucceeded | src/host_image_backup/service.py:565-568 | the success records of a batch equal its success count |
| Backup.BatchItemSucceeded | src/host_image_backup/service.py:565-570 | one file records a success exactly when its upload succeeds |
| Backup.BatchNoSkips | src/host_image_backup/service.py:557-576 | a batch records no skip |
| Backup.BatchFiles | src/host_image_backup/service.py:559-567 | every record of a batch uploads one of its files, with remote path prefix+name when the prefix is non-empty and the file's name otherwise |
| Backup.BatchOkIffAllUpload | src/host_image_backup/service.py:565-584 | a batch succeeds exactly when every one of its uploads does |
| Backup.BackupRun | src/host_image_backup/service.py:96-277 | `backup_images` as one value: no provider, or a `max_concurrent_downloads` below 1 (the executor raises at service.py:147-149 and the `except` at 275-277 returns False), gives False and no record; a raising listing keeps the skip records and fails; otherwise the skip records, then one result record per scheduled image, and True exactly when every scheduled download succeeds. `BackupImages` is proved to compute it, and `CompletedRun`, `OneRecordPerImage`, `RecordOrder` and `OkIffNoFailure` state its properties |
| Backup.UploadRun | src/host_image_backup/service.py:408-500 | `upload_image` as one value: nothing is recorded without a provider, without the file or when the upload raises; otherwise one record. `UploadImage` is proved to compute it, and `UploadRecord` states its properties |
| Backup.ConnectionTest | src/host_image_backup/service.py:79-94 | the connection test of a provider's class, with an exception read as False: OSS's `test_connection`, SM.MS's `test_connection`, or the given answer for the other classes. `OssTestIsBucketInfo` and `SmsTestIsProfile` state it for the two modelled providers |
| Backup.BackupService.TestProvider | src/host_image_backup/service.py:73-94 | `test_provider` passes only for a provider that `get_provider` resolves, and then it is that provider's connection test |
| Backup.OssTestIsBucketInfo | src/host_image_backup/providers/oss.py:35-49 | once the OSS provider resolves, `test_provider("oss")` passes exactly when `get_bucket_info` does not raise |
| Backup.SmsTestIsProfile | src/host_image_backup/providers/sms.py:21-39 | once the SM.MS provider resolves, `test_provider("sms")` passes exactly when `GET /profile` answers 200 |
| Backup.ServiceResolvesAsManager | src/host_image_backup/service.py:46-67 | the service finds a provider exactly when the provider manager constructs one over the same configuration and the built-in table, and it finds the same instance |
| Registry.Discover | src/host_image_backup/provider_manager.py:364-384 | the discovery loop as a fold over the entry points: an entry point with a non-empty name not yet in the table that loads a provider subclass is appended, every other one is ignored. `LoadEntryPoints` is proved to compute it, and the five lemmas below state its properties |
| Registry.DiscoverExtends | src/host_image_backup/provider_manager.py:364-384 | discovery keeps the table a dict, only appends names, and never changes an existing class |
| Registry.DiscoverKeepsPrefix | src/host_image_backup/provider_manager.py:364-384 | names at the head of the table, the built-ins among them, stay at its head through discovery |
| Registry.DiscoverOneExtends | src/host_image_backup/provider_manager.py:366-380 | one entry point keeps the table a dict and only appends |
| Registry.DiscoveredNamesComeFromEntryPoints | src/host_image_backup/provider_manager.py:366-380 | every discovered name is non-empty and comes from an entry point that loaded a provider subclass, whose class it holds |
| Registry.DiscoverKeepsPresent | src/host_image_backup/provider_manager.py:368-369 | a name already in the table keeps its class (first wins) |
| Registry.Resolve | src/host_image_backup/provider_manager.py:92-120 | the outcome is, in checking order: not configured, disabled, invalid, no class, constructor raised, or constructed from the table's class and the configuration |
| Registry.EnabledNamesMembers | src/host_image_backup/provider_manager.py:241-253 | a name is kept exactly when it is listed and enabled |
| Registry.ValidationsKeys | src/host_image_backup/provider_manager.py:255-267 | over distinct names, the results are keyed by the enabled names in list order |
| Registry.ValidationsGet | src/host_image_backup/provider_manager.py:255-267 | each enabled name reads back its validation verdict, and every other name is absent |
| Registry.ValidationsSpec | src/host_image_backup/provider_manager.py:255-267 | both of the above |
| Registry.ValidationsOfKeys | src/host_image_backup/provider_manager.py:239-267 | the same over the keys of the table |
| Registry.KeepEnabled | src/host_image_backup/provider_manager.py:252-253 | the comprehension keeps exactly the enabled names in order |
| Registry.ValidateEach | src/host_image_backup/provider_manager.py:264-267 | the loop gives one verdict per enabled name in list order |
| Registry.ProviderManager.constructor | src/host_image_backup/provider_manager.py:50-66 | a new manager has the five built-ins in order, an empty cache and discovery not yet run |
| Registry.ProviderManager.EnsureDiscovery | src/host_image_backup/provider_manager.py:340-390 | the first call runs discovery and sets the flag; later calls change nothing |
| Registry.ProviderManager.LoadEntryPoints | src/host_image_backup/provider_manager.py:364-384 | the loop leaves the table discovery describes |
| Registry.ProviderManager.GetProvider | src/host_image_backup/provider_manager.py:71-120 | a cached name returns its instance without consulting the configuration; otherwise the validation chain decides, and only a constructed instance is cached |
| Registry.ProviderManager.ListProviders | src/host_image_backup/provider_manager.py:230-239 | after discovery, the table's names in insertion order, starting with the five built-ins |
| Registry.ProviderManager.GetProviderClass | src/host_image_backup/provider_manager.py:308-322 | after discovery, the class filed under the name; a built-in name always has one |
| Registry.ProviderManager.GetEnabledProviders | src/host_image_backup/provider_manager.py:241-253 | the listed names whose configuration is enabled, in list order |
| Registry.ProviderManager.ValidateAllProviders | src/host_image_backup/provider_manager.py:255-267 | one verdict per enabled listed name, in list order |
| Registry.ProviderManager.ClearCache | src/host_image_backup/provider_manager.py:284-286 | the cache becomes empty; the table is untouched |
| Registry.ProviderManager.RefreshProvider | src/host_image_backup/provider_manager.py:288-306 | only this name's cache entry is dropped before it is resolved afresh |
| Registry.ProviderManager.RegisterProvider | src/host_image_backup/provider_manager.py:324-337 | the name's class is replaced or appended, and every other entry and the key order are unchanged |
| Registry.ProviderManager.IsProviderSupported | src/host_image_backup/provider_manager.py:392-405 | membership in the table as it stands |
| Registry.RegisteredBeforeDiscoveryWins | src/host_image_backup/provider_manager.py:336-369 | a class registered before discovery survives discovery |
| Config.TopLevel | src/host_image_backup/config_manager.py:90-110 | a falsy document reads as `{}`, a dict is taken as is, and any other document is an error |
| Config.Build | src/host_image_backup/config_manager.py:115-117 | a built provider configuration carries the given name, and building needs a mapping without a `name` key |
| Config.SectionContains | src/host_image_backup/config_manager.py:112 | `provider_name in providers_data` for whatever the section is: a key of a mapping, an element of a list, a substring of a string; any other value raises. `LoadProvidersFromMapping` states the mapping case |
| Config.LoadProviders | src/host_image_backup/config_manager.py:109-119 | the provider loop over the supported names: a present section that fails to build is skipped, and a section that cannot be searched or subscripted is an error that stops the load. `LoadProvidersFromMapping`, `LoadedEntriesAreSupported`, `LoadProvidersErrorSticks` and `LoadProvidersWellFormed` state its properties |
| Config.MakeAppConfig | src/host_image_backup/config_manager.py:99-121 | `AppConfig(**config_data)` with strict types: each setting is its default when missing, and a value of the wrong type is an error. `MissingSettingsTakeDefaults` and `GivenSettingsAreKept` state it |
| Config.LoadData | src/host_image_backup/config_manager.py:88-122 | `load_config` on a parsed document: a document that is truthy and not a mapping is an error; otherwise the providers, then the settings. `ConfigManager.LoadConfig` is proved to compute it, and `SaveThenLoad` relates it to `SaveData` |
| Config.MissingSettingsTakeDefaults | src/host_image_backup/config_manager.py:98-107 | each missing setting takes its default: ./backup, 5, 30, 3, 8192, INFO |
| Config.GivenSettingsAreKept | src/host_image_backup/config_manager.py:99-121 | each of the six settings that is given with the right type is taken from the document: default_output_dir, max_concurrent_downloads, timeout, retry_count, chunk_size, log_level |
| Config.LoadProvidersFromMapping | src/host_image_backup/config_manager.py:109-119 | for a mapping section, exactly the supported names present are loaded, each built from its own data, and a failed build is skipped without affecting the others |
| Config.LoadedEntriesAreSupported | src/host_image_backup/config_manager.py:110-117 | every loaded entry is filed under its own supported name |
| Config.SaveData | src/host_image_backup/config_manager.py:153-166 | the saved keys are exactly the six settings plus `providers` |
| Config.SavedProviders | src/host_image_backup/config_manager.py:164-166 | each provider is saved under its name as its fields without `name` |
| Config.SaveThenLoad | src/host_image_backup/config_manager.py:99-166 | loading the saved data gives back the six settings and, for the supported names, the same provider configurations |
| Config.SavedSettingsReload | src/host_image_backup/config_manager.py:99-160 | the six saved settings coerce back to the values they came from |
| Config.SavedIntsRead | src/host_image_backup/config_manager.py:101-159 | the four integer settings read back as written |
| Config.SavedStrsRead | src/host_image_backup/config_manager.py:100-160 | the two string settings read back as written |
| Config.SavedSectionReloads | src/host_image_backup/config_manager.py:109-166 | the saved provider section loads back as the supported providers |
| Config.Merged | src/host_image_backup/config_manager.py:273-281 | the update's keys win, the existing fields stay unless overridden, and nothing else is added |
| Config.ConfigManager.constructor | src/host_image_backup/config_manager.py:36-46 | a manager over a configuration whose entries sit under their own names |
| Config.ConfigManager.GetSupportedProviders | src/host_image_backup/config_manager.py:289-297 | the five names oss, cos, sms, imgur, github in this order, all distinct |
| Config.ConfigManager.GetProviderConfig | src/host_image_backup/config_manager.py:201-214 | an entry exactly when the name is configured, and then the configured entry |
| Config.ConfigManager.IsProviderEnabled | src/host_image_backup/config_manager.py:216-230 | true exactly when a configuration exists and is enabled |
| Config.ConfigManager.ValidateProviderConfig | src/host_image_backup/config_manager.py:232-248 | false without a configuration, otherwise the configuration's own validation |
| Config.ConfigManager.LoadConfig | src/host_image_backup/config_manager.py:88-122 | the result is what the document means; a success is stored as the configuration, and an error leaves the old one |
| Config.ConfigManager.LoadedIsValid | src/host_image_backup/config_manager.py:109-121 | a successful load files each entry once, under its own name |
| Config.ConfigManager.UpdateProviderConfig | src/host_image_backup/config_manager.py:250-287 | an unsupported name raises and changes nothing; otherwise the merged settings are rebuilt under the name and replace only that entry |
| Config.LoadProvidersErrorSticks | src/host_image_backup/config_manager.py:111-113 | an error in the provider loop ends the load |
| Config.LoadProvidersWellFormed | src/host_image_backup/config_manager.py:111-119 | the provider loop never files a name twice and files each entry under its own name |
| Config.UpdateTouchesOneEntry | src/host_image_backup/config_manager.py:272-287 | an update changes only the named entry; the new entry carries the name and, for a class that keeps its input, exactly the merged fields |
| PyDicts.Keys | src/host_image_backup/provider_manager.py:239 | `list(d.keys())`: one key per entry, in insertion order |
| PyDicts.Get | src/host_image_backup/config_manager.py:214 | `d.get(k)` finds a value exactly when `k` is a key, and the value filed under it |
| PyDicts.PutKeys | src/host_image_backup/provider_manager.py:336 | `d[k] = v` keeps the key order and appends a new key last |
| PyDicts.GetPut | src/host_image_backup/provider_manager.py:336 | after `d[k] = v`, `k` reads `v` and every other key reads as before |
| PyDicts.GetAtIndex | src/host_image_backup/config_manager.py:214 | in a dict without duplicate keys, the entry at a key's position reads back by `d.get` |
| PyDicts.PutWellFormed | src/host_image_backup/config_manager.py:287 | `d[k] = v` never duplicates a key |
| Paths.Name | src/host_image_backup/providers/oss.py:83 | `Path(p).name` contains no `/` and is never `.` |
| Paths.Parts | src/host_image_backup/providers/oss.py:74-83 | the reference definition of a POSIX path's components read left to right: split at every `/`, dropping empty pieces and `.` |
| Paths.PartsAppend | src/host_image_backup/providers/oss.py:74-83 | splitting a path at one `/` splits its components |
| Paths.NameIsLastPart | src/host_image_backup/providers/oss.py:83 | `Path(p).name` is the last of the components, "" when there is none |
| Paths.DotNameExample | src/host_image_backup/providers/oss.py:83 | a final `.` component is dropped: the name of `cat.jpg/.` is `cat.jpg` |
| Paths.SlashNameExample | src/host_image_backup/providers/oss.py:83 | an end slash is dropped: the name of `a/b/` is `b` |
| Paths.Suffix | src/host_image_backup/providers/oss.py:74 | `suffix` is the end of the name from its last dot, empty when there is none, and never the whole name |
| Paths.Stem | src/host_image_backup/service.py:318 | stem followed by suffix is the name |
| Paths.Lower | src/host_image_backup/providers/oss.py:74 | `lower()` keeps the length and lower-cases ASCII letters |
| Images.Take | src/host_image_backup/providers/sms.py:89-91 | the first `n` elements, none for a non-positive `n` |
| Images.Bound | src/host_image_backup/providers/sms.py:63-91 | a falsy limit keeps the whole stream; a truthy one keeps a prefix of at most `limit` elements |
| Oss.Info | src/host_image_backup/providers/oss.py:79-91 | the record built for one object; `InfoFields` states its fields |
| Oss.InfoFields | src/host_image_backup/providers/oss.py:79-91 | the url is `https://{bucket}.{endpoint}/{key}`, the filename is the key's last component, the size is the object's, created_at is the rendered timestamp, or None when the timestamp is falsy, and the metadata holds exactly the key, etag and storage class, with the key first |
| Oss.Scan | src/host_image_backup/providers/oss.py:64-96 | the reference definition of the listing loop from `count` images on: fetch the next object (the iterator raises after the last when it faults), stop once a truthy limit is reached, skip a non-image, build and yield an image's record, and raise when that record cannot be built |
| Oss.Rendered | src/host_image_backup/providers/oss.py:79-91 | the objects before the first image whose record cannot be built, all of them when there is none; it is never longer than the objects |
| Oss.RenderedIsPrefixBeforeBad | src/host_image_backup/providers/oss.py:79-91 | `Rendered` is a prefix of the objects without a failing image; it is the whole exactly when no image fails; otherwise the next object is the first failing image |
| Oss.ListingRaises | src/host_image_backup/providers/oss.py:64-96 | the closed form of when the listing raises: at the first failing image unless the limit stopped the loop before it, and with no failing image when the iterator faults unless the limit stopped the loop on the last object |
| Oss.ScanItems | src/host_image_backup/providers/oss.py:64-96 | the listing is the stream of the images before the first failing record, cut at a truthy limit; non-images do not count towards the limit |
| Oss.ScanRaises | src/host_image_backup/providers/oss.py:64-96 | the listing raises exactly when `ListingRaises` holds |
| Oss.ListingRaisesStep | src/host_image_backup/providers/oss.py:69-91 | past an object that is not a failing image and with the limit not reached, whether the rest of the listing raises is decided by the rest of the objects |
| Oss.ScanStops | src/host_image_backup/providers/oss.py:70-72 | a reached limit stops the loop with nothing more and no error; a failing image stops it with nothing more and an error |
| Oss.ScanYields | src/host_image_backup/providers/oss.py:79-92 | an image whose record can be built is yielded first, and counted |
| Oss.ScanSkips | src/host_image_backup/providers/oss.py:74-77 | a non-image is skipped without counting |
| Oss.ScanObjects | src/host_image_backup/providers/oss.py:64-92 | the loop computes `Scan` |
| Oss.ScanTurn | src/host_image_backup/providers/oss.py:69-92 | one turn of that loop: a reached limit or a failing image stops it with the whole listing's items and error, an image is yielded as its record and counted, any other key is skipped, and the rest of the listing stays what remains of the whole |
| Oss.ListImages | src/host_image_backup/providers/oss.py:51-96 | `list_images(limit)` yields, in iterator order, the records of the image objects before the first failing record, cut at a truthy limit; it raises exactly when `ListingRaises` holds |
| Oss.ListWith | src/host_image_backup/providers/oss.py:64-96 | the same for any key filter |
| Oss.GetImageCount | src/host_image_backup/providers/oss.py:126-146 | the number of image objects, or None when the iterator raises |
| Oss.CountWith | src/host_image_backup/providers/oss.py:134-146 | the counting loop for any key filter |
| Oss.StreamCounted | src/host_image_backup/providers/oss.py:67-141 | the image stream has as many elements as the count |
| Oss.ImageCountAppend | src/host_image_backup/providers/oss.py:134-141 | counting images distributes over concatenating object lists |
| Oss.RenderedCountsLess | src/host_image_backup/providers/oss.py:79-91 | when some image record fails, fewer images are rendered than there are |
| Oss.CountAgreesWithListing | src/host_image_backup/providers/oss.py:64-146 | without a failing record, the count is the length of `list_images(None)` and the listing raises exactly when the iterator faults; with one, the listing raises and yields fewer images than the count, which does not build records |
| Oss.LimitIsExact | src/host_image_backup/providers/oss.py:70-92 | with a positive limit, min(limit, number of images before the first failing record) are yielded: non-images do not use up the limit |
| Oss.DownloadKey | src/host_image_backup/providers/oss.py:115-117 | the key `download_image` fetches: `metadata['key']` when present and non-empty, the filename otherwise; `ListedImagesDownloadTheirObject` states it for listed images |
| Oss.DownloadImage | src/host_image_backup/providers/oss.py:98-124 | `download_image`: whether the copy of that key completes, any fault reading as False; `ListedImageDownload` states it for listed images |
| Oss.ListedImagesDownloadTheirObject | src/host_image_backup/providers/oss.py:115-117 | a listed image is downloaded by its object's key, or by its file name for the empty key |
| Oss.ListedImageDownload | src/host_image_backup/providers/oss.py:113-124 | downloading a listed image succeeds exactly when fetching that key does; any fault reads as False |
| Oss.StreamComesFromObjects | src/host_image_backup/providers/oss.py:69-91 | every streamed record is the record of an object that passed the filter |
| Sms.Infos | src/host_image_backup/providers/sms.py:89-104 | one record per history entry |
| Sms.InfosAt | src/host_image_backup/providers/sms.py:93-103 | the `i`-th record copies url, filename, size and created_at from the `i`-th entry, and puts its hash, delete and page links in the metadata |
| Sms.YieldPage | src/host_image_backup/providers/sms.py:89-104 | the inner loop yields the page's entries in order until the limit is reached, and counts them |
| Sms.Pages | src/host_image_backup/providers/sms.py:62-113 | the reference definition of the page walk from page `n` with `count` images yielded: a reached limit stops it; a raising request ends it with an error; a failed, unsuccessful or empty answer stops it; otherwise the page's records up to the limit, and a full page moves on to page `n + 1`. `WalkPages` is proved to compute it, and the lemmas below state its properties |
| Sms.ListImages | src/host_image_backup/providers/sms.py:41-117 | consumed to the end, it is the page walk. Pages are requested as 0, 1, 2, …, and every page requested before the last was full and successful |
| Sms.WalkPages | src/host_image_backup/providers/sms.py:54-113 | the `while True` loop computes the page walk |
| Sms.Turn | src/host_image_backup/providers/sms.py:62-110 | one turn of that loop: a limit that is reached, a raised request, a failed, unsuccessful or empty answer, or a short page stops it, and a full page moves on to the next page |
| Sms.WalkIsPages | src/host_image_backup/providers/sms.py:62-113 | the loop's carried images plus the rest of the walk are the listing |
| Sms.UnboundedIgnoresCount | src/host_image_backup/providers/sms.py:63-91 | under a falsy limit, the count is never consulted |
| Sms.BoundedPages | src/host_image_backup/providers/sms.py:63-91 | a truthy limit cuts the unbounded listing after `limit - count` images, and the listing raises only if that came first |
| Sms.LimitBoundsListing | src/host_image_backup/providers/sms.py:63-91 | `list_images(limit)` keeps at most `limit` images of the unbounded listing; None or 0 means no bound |
| Sms.UnboundedListing | src/host_image_backup/providers/sms.py:59-110 | without a limit, the listing is the records of every full page and then of the page that ends it, in page order and then entry order. It raises exactly when the ending request raised |
| Sms.ListingIsHistory | src/host_image_backup/providers/sms.py:54-117 | `list_images(limit)` is the history entries read off the page answers, cut at a truthy limit |
| Sms.DownloadImage | src/host_image_backup/providers/sms.py:119-154 | True only when the request and the write succeed; an error status or any fault gives False |
| Sms.GetImageCount | src/host_image_backup/providers/sms.py:156-181 | the profile's upload count when the status is 200 and `success` is set; None otherwise and on any exception |
| Cli.SelectedMembers | src/host_image_backup/cli.py:200-204 | a name is selected exactly when some entry with that name is kept |
| Cli.SelectedKeepsOrder | src/host_image_backup/cli.py:200-204 | the selection keeps configuration order |
| Cli.BackupTargets | src/host_image_backup/cli.py:200-204 | the selection of `backup-all`: the configured providers that are enabled and valid, in configuration order; `BackupTargetsSpec`, `SelectedMembers` and `SelectedKeepsOrder` state it |
| Cli.BackupTargetsSpec | src/host_image_backup/cli.py:200-204 | `backup-all` targets exactly the configured providers that are enabled and valid |
| Cli.TargetRuns | src/host_image_backup/cli.py:222-237 | one run per attempted target |
| Cli.RunsAppend | src/host_image_backup/cli.py:231-242 | one more run adds its records and, when it succeeds, one to the success count |
| Cli.OkCountFull | src/host_image_backup/cli.py:239-251 | every run succeeded exactly when the success count equals the number of runs |
| Cli.BackupAll | src/host_image_backup/cli.py:180-251 | with no target it exits 1 before any backup; otherwise it backs the targets up in order and exits 1 exactly when some backup returned False |
| Cli.RunTargets | src/host_image_backup/cli.py:220-240 | the loop appends every target's records in order and counts the successes |
| Cli.BackupTarget | src/host_image_backup/cli.py:231-237 | one turn of that loop: one `backup_images` run |
| Cli.TargetsHaveProviders | src/host_image_backup/cli.py:200-204 | over supported names, the `backup-all` selection agrees with the checks of `get_provider` |
| Cli.BackupCommand | src/host_image_backup/cli.py:120-176 | an unknown name exits 1 with no record; otherwise one backup run, and the exit status is 0 exactly when it succeeded |
| Cli.TestCommand | src/host_image_backup/cli.py:280-296 | exits 0 or 1, and 0 exactly when the name is known and `test_provider` passes; a provider that does not resolve exits 1. For a resolved OSS provider it exits 0 exactly when `get_bucket_info` does not raise, and for a resolved SM.MS provider exactly when `GET /profile` answers 200 |
| Cli.InfoCommand | src/host_image_backup/cli.py:300-308 | exit 1 exactly for an unknown name |
| Cli.UploadCommand | src/host_image_backup/cli.py:311-355 | a file that does not exist exits 2 with no record, before any other check; an unknown name exits 1 with no record; otherwise one upload, and the exit status is 0 exactly when it succeeded |
| Cli.IsUploadFile | src/host_image_backup/cli.py:414-416 | the file test of `upload-all`: a regular file whose lower-cased suffix is one of the ten extensions; `CandidatesSpec` states what it keeps |
| Cli.Candidates | src/host_image_backup/cli.py:412-416 | the comprehension over the glob result: the kept paths in glob order; `CandidatesSpec` and `CandidatesKeepOrder` state it |
| Cli.CandidatesSpec | src/host_image_backup/cli.py:412-416 | exactly the regular files whose lower-cased suffix is one of the ten extensions are kept, and none is added |
| Cli.CandidatesKeepOrder | src/host_image_backup/cli.py:412-416 | the candidates keep glob order |
| Cli.Truncated | src/host_image_backup/cli.py:418-419 | `files[:limit]` under a truthy limit: a prefix of min(limit, n) files for a positive limit, and all but the last `-limit` for a negative one |
| Cli.UploadAllCommand | src/host_image_backup/cli.py:358-449 | a directory argument that is not a directory exits 2 with no upload, before any other check; an unknown name exits 1; otherwise the truncated candidates are uploaded in one batch, exiting 1 with no upload when there are none, and 0 exactly when every upload succeeded |
| Cli.ListStatus | src/host_image_backup/cli.py:269-274 | the status column: Enabled exactly when the name has a configuration entry that is enabled; `ListStatusIsEnabled` ties it to `is_provider_enabled` |
| Cli.ListStatusIsEnabled | src/host_image_backup/cli.py:268-274 | `list` marks a provider Enabled exactly when `is_provider_enabled` holds for it |
| Cli.ListRows | src/host_image_backup/cli.py:260-275 | one row per provider of the table, in order, with its status |

## Left out

- Console output: rich panels, tables and progress bars, the summaries, `show_provider_info` and `get_provider_info`. `info` is modelled by its exit status alone.
- The thread pool is run sequentially, in submission order. Its size, `max_concurrent_downloads`, decides only whether the executor can be built (at least 1). Existence checks see the names present before the run, as if every download finished after the enumeration; a run in which an earlier download of the same destination name finishes first is not modelled.
- The progress-bar total of `backup_images`: `get_image_count` is not called from the model of the run.
- The output directory, `mkdir`, and a failure of `mkdir`: the destination is the sanitised name inside the provider's directory, and `exists()` is membership in the given set.
- `MetadataManager`: its file hashing is an input (`FileFacts`), and statistics, duplicates and `update_file_metadata` are not modelled. `providers/base.py` and the metadata module are not part of this model; the fields of `ImageInfo` are those the providers fill in.
- PIL dimension probing after a download.
- Provider constructors and their SDK clients: the service builds an instance from a class and a configuration and never raises there. In the provider manager, "the constructor raises" is an input.
- YAML parsing and writing, the file-not-found branch of `load_config` (which returns default settings without storing them), the lazy `config` property, `create_default_config` and the config path. A document is a parsed `Value` tree.
- pydantic: the provider-config classes are opaque functions (`construct`, `validate`); `AppConfig(**data)` is modelled with strict types.
- `importlib.metadata` scanning and `ep.load()`: each entry point comes with what loading it gives.
- The network: requests, the oss2 SDK, `time.sleep` between SM.MS pages. OSS `download_image` and `test_connection` reduce to whether the SDK call raises.
- The connection tests of the COS, imgur and GitHub providers: their modules are not part of this model, and their answers are the input `Probe.other`.
- `ProviderManager.test_provider` and `ProviderManager.validate_provider_config` are not modelled; the latter delegates to `Config.ConfigManager.ValidateProviderConfig`. (`BackupService.test_provider` is `Backup.BackupService.TestProvider`.)
- SM.MS history entries always carry `url` and `filename`. An entry without one of them makes `img['url']` or `img['filename']` raise `KeyError` in the middle of a page (`providers/sms.py:94-95`), after the page's earlier records were yielded; that is not modelled.
- Sms.ListImages: the page answers are a finite script, and a request past its end raises (`AnswerAt`). So every modelled listing ends. A service that keeps answering full pages, on which the `while True` loop of `list_images` never ends, is not modelled.
- A directory given as the `file` argument of `upload` passes typer's `exists=True` check. The model knows only the existing regular files (`files`), so such a path exits 2 in the model. The source would instead go on to `upload_image`, which first hashes and stats the path (`service.py:443-444`) before any provider call; how that step treats a directory depends on `MetadataManager`, which is outside this model.
- The `upload-all` glob: the pattern expansion over the ten extensions and the order the directory walk returns are an input (`found`).
- `providers/github.py`, and the `stats`, `history`, `tool` and `compress` commands and logging setup of `cli.py`.
- Paths.Lower: lower-cases ASCII letters only, which decides every suffix the code compares against.
