/** The backup service of service.py: provider lookup, the retrying
    download, the per-image bookkeeping of `backup_images`, and single and
    batch upload. The metadata store is an append-only record log; the
    thread pool is run in submission order; the provider's listing, the
    download and upload answers and the files on disk are inputs. */
module Backup {
  import opened Wrappers
  import opened PyDicts
  import opened Paths
  import opened Config
  import opened Registry
  import opened Images
  import opened Filenames
  import Oss
  import Sms

  datatype Operation = Download | Upload

  datatype Status = Skipped | Succeeded | Failed

  /** What the store keeps of one transfer (`record_backup`). `file` is the
      local path: for downloads, the name inside the provider's directory. */
  datatype Record = Record(
    operation: Operation,
    provider: string,
    file: string,
    remotePath: string,
    fileHash: string,
    fileSize: int,
    status: Status,
    message: Message)

  /** The hash and size of a file on disk. */
  datatype FileFacts = FileFacts(hash: string, size: int)

  /** A record's message: the three fixed download messages, or the text
      an upload answer carries. */
  datatype Message = AlreadyExists | Completed | DownloadFailed | Text(s: string)

  function MessageText(m: Message): string
  {
    match m
    case AlreadyExists => "File already exists and skip_existing is True"
    case Completed => "Download completed successfully"
    case DownloadFailed => "Download failed"
    case Text(s) => s
  }

  // ---------------------------------------------------------------------
  // `_download_image_with_retry`

  /** One call of `provider.download_image`: it returns a truth value or
      raises. */
  datatype Attempt = Returned(ok: bool) | AttemptRaised

  /** The `k`-th call's outcome; calls beyond the script raise. */
  function AttemptAt(script: seq<Attempt>, k: nat): Attempt
  {
    if k < |script| then script[k] else AttemptRaised
  }

  predicate Succeeds(a: Attempt)
  {
    a == Returned(true)
  }

  /** `range(retry_count + 1)`: the number of calls allowed. */
  function Budget(retryCount: int): nat
  {
    if retryCount + 1 > 0 then retryCount + 1 else 0
  }

  /** Some allowed call succeeds. */
  predicate RetrySucceeds(retryCount: int, script: seq<Attempt>)
  {
    exists k :: 0 <= k < Budget(retryCount) && Succeeds(AttemptAt(script, k))
  }

  /** `_download_image_with_retry`: call until the first True, at most
      `retry_count + 1` times; a False and an exception both count as a
      failed call. `calls` is the number of calls made. */
  method DownloadWithRetry(retryCount: int, script: seq<Attempt>) returns (ok: bool, calls: nat)
    ensures ok <==> RetrySucceeds(retryCount, script)
    ensures calls <= Budget(retryCount)
    ensures ok ==> 0 < calls && Succeeds(AttemptAt(script, calls - 1))
    ensures !ok ==> calls == Budget(retryCount)
    ensures forall k :: 0 <= k < calls && (k < calls - 1 || !ok) ==> !Succeeds(AttemptAt(script, k))
  {
    calls := 0;
    while calls < Budget(retryCount)
      invariant calls <= Budget(retryCount)
      invariant forall k :: 0 <= k < calls ==> !Succeeds(AttemptAt(script, k))
    {
      var a := AttemptAt(script, calls);
      calls := calls + 1;
      if a.Returned? && a.ok {
        return true, calls;
      }
    }
    ok := false;
  }

  // ---------------------------------------------------------------------
  // `backup_images`: the specification of one run

  /** `output_file.exists()` for a destination name inside the provider's
      directory, against the names present before the run: the names "",
      "." and ".." denote directories, which exist. */
  predicate Present(existing: set<string>, name: string)
  {
    name == "" || name == "." || name == ".." || name in existing
  }

  // The bookkeeping is stated for any naming `dest` of the destination
  // file; the service names it with `Sanitize`.

  /** `skip_existing and output_file.exists()`. */
  predicate SkipsImage(dest: string -> string, skipExisting: bool, existing: set<string>, x: ImageInfo)
  {
    skipExisting && Present(existing, dest(x.filename))
  }

  /** The images skipped during enumeration, in order. */
  function SkippedImages(dest: string -> string, xs: seq<ImageInfo>, skipExisting: bool, existing: set<string>): seq<ImageInfo>
  {
    if xs == [] then []
    else
      var init := SkippedImages(dest, xs[..|xs| - 1], skipExisting, existing);
      if SkipsImage(dest, skipExisting, existing, xs[|xs| - 1]) then init + [xs[|xs| - 1]] else init
  }

  /** The images scheduled for download, in submission order. */
  function ScheduledImages(dest: string -> string, xs: seq<ImageInfo>, skipExisting: bool, existing: set<string>): seq<ImageInfo>
  {
    if xs == [] then []
    else
      var init := ScheduledImages(dest, xs[..|xs| - 1], skipExisting, existing);
      if SkipsImage(dest, skipExisting, existing, xs[|xs| - 1]) then init else init + [xs[|xs| - 1]]
  }

  /** `image_info.url or image_info.filename`. */
  function RemotePath(x: ImageInfo): string
  {
    if x.url != "" then x.url else x.filename
  }

  function SkipRecord(dest: string -> string, provider: string, x: ImageInfo): Record
  {
    Record(Download, provider, dest(x.filename), RemotePath(x), "", 0, Skipped, AlreadyExists)
  }

  /** The record of a finished download: a success carries the hash and
      size of the written file (or "" and 0 when no file is there), a
      failure carries neither. */
  function ResultRecord(dest: string -> string, provider: string, x: ImageInfo, ok: bool, written: map<string, FileFacts>): Record
  {
    var f := dest(x.filename);
    if ok then
      var facts := if f in written then written[f] else FileFacts("", 0);
      Record(Download, provider, f, RemotePath(x), facts.hash, facts.size, Succeeded, Completed)
    else
      Record(Download, provider, f, RemotePath(x), "", 0, Failed, DownloadFailed)
  }

  /** The skip records of the skipped images. */
  function SkipLog(dest: string -> string, provider: string, skipped: seq<ImageInfo>): (r: seq<Record>)
    ensures |r| == |skipped|
  {
    seq(|skipped|, k requires 0 <= k < |skipped| => SkipRecord(dest, provider, skipped[k]))
  }

  /** The download script of the `k`-th scheduled image. */
  function ScriptAt(scripts: seq<seq<Attempt>>, k: nat): seq<Attempt>
  {
    if k < |scripts| then scripts[k] else []
  }

  /** The records of the first `n` scheduled images, in submission order. */
  function ResultLog(dest: string -> string, provider: string, tasks: seq<ImageInfo>, retryCount: int, scripts: seq<seq<Attempt>>,
                     written: map<string, FileFacts>, n: nat): (r: seq<Record>)
    requires n <= |tasks|
    ensures |r| == n
  {
    seq(n, k requires 0 <= k < n => ResultRecord(dest, provider, tasks[k], RetrySucceeds(retryCount, ScriptAt(scripts, k)), written))
  }

  /** The number of the first `n` scheduled images whose download succeeds. */
  function SuccessCount(retryCount: int, scripts: seq<seq<Attempt>>, n: nat): (c: nat)
    ensures c <= n
  {
    if n == 0 then 0
    else SuccessCount(retryCount, scripts, n - 1) + (if RetrySucceeds(retryCount, ScriptAt(scripts, n - 1)) then 1 else 0)
  }

  /** What a run returns and appends to the store. */
  datatype Run = Run(ok: bool, log: seq<Record>)

  /** `backup_images` for provider `p` (None when `get_provider` refuses)
      whose listing under the run's limit is `listing`, with a thread pool
      of `workers` threads. A pool size below 1 makes the executor raise
      before anything is listed or recorded, and the run fails. A listing
      that raises ends the run after enumeration: the skip records stay,
      nothing else is recorded and the run fails. */
  function BackupRun(dest: string -> string, p: Option<ProviderInstance>, name: string, listing: Enumeration, skipExisting: bool,
                     existing: set<string>, workers: int, retryCount: int, scripts: seq<seq<Attempt>>,
                     written: map<string, FileFacts>): Run
  {
    if p.None? || workers < 1 then Run(false, [])
    else
      var skips := SkipLog(dest, name, SkippedImages(dest, listing.items, skipExisting, existing));
      var tasks := ScheduledImages(dest, listing.items, skipExisting, existing);
      if listing.raised then Run(false, skips)
      else
        Run(forall k :: 0 <= k < |tasks| ==> RetrySucceeds(retryCount, ScriptAt(scripts, k)),
            skips + ResultLog(dest, name, tasks, retryCount, scripts, written, |tasks|))
  }

  /** The number of records with status `s`. */
  function CountStatus(log: seq<Record>, s: Status): (c: nat)
    ensures c <= |log|
  {
    if log == [] then 0
    else CountStatus(log[..|log| - 1], s) + (if log[|log| - 1].status == s then 1 else 0)
  }

  // ---------------------------------------------------------------------
  // `upload_image` and `upload_batch`

  /** What `provider.upload_image` gives: an `UploadResult` or an exception. */
  datatype UploadAnswer = UploadResult(success: bool, message: string) | UploadRaised

  // As for downloads, uploads are stated for any base-name function
  // `base`; the service uses `Name`, the last component of the path.

  /** `remote_path or file_path.name`. */
  function UploadTarget(base: string -> string, path: string, remotePath: Option<string>): string
  {
    if remotePath.Some? && remotePath.value != "" then remotePath.value else base(path)
  }

  /** `upload_image` for provider `p`: nothing is recorded when there is no
      provider, no file at `path`, or the upload raises; otherwise one
      record with the file's hash and size and the upload's verdict. */
  function UploadRun(base: string -> string, p: Option<ProviderInstance>, name: string, path: string, remotePath: Option<string>,
                     files: map<string, FileFacts>, answer: UploadAnswer): Run
  {
    if p.None? || path !in files || answer.UploadRaised? then Run(false, [])
    else
      var facts := files[path];
      var status := if answer.success then Succeeded else Failed;
      Run(answer.success,
          [Record(Upload, name, path, UploadTarget(base, path, remotePath), facts.hash, facts.size, status, Text(answer.message))])
  }

  /** The remote path `upload_batch` passes for one file. */
  function BatchRemote(base: string -> string, prefix: Option<string>, path: string): Option<string>
  {
    if prefix.Some? && prefix.value != "" then Some(prefix.value + base(path)) else None
  }

  function UploadAnswerAt(answers: seq<UploadAnswer>, k: nat): UploadAnswer
  {
    if k < |answers| then answers[k] else UploadRaised
  }

  /** The upload of the `k`-th file of a batch. */
  function BatchItem(base: string -> string, p: Option<ProviderInstance>, name: string, paths: seq<string>, prefix: Option<string>,
                     files: map<string, FileFacts>, answers: seq<UploadAnswer>, k: nat): Run
    requires k < |paths|
  {
    UploadRun(base, p, name, paths[k], BatchRemote(base, prefix, paths[k]), files, UploadAnswerAt(answers, k))
  }

  /** The records of the first `n` files of a batch. */
  function BatchLog(base: string -> string, p: Option<ProviderInstance>, name: string, paths: seq<string>, prefix: Option<string>,
                    files: map<string, FileFacts>, answers: seq<UploadAnswer>, n: nat): seq<Record>
    requires n <= |paths|
  {
    if n == 0 then []
    else BatchLog(base, p, name, paths, prefix, files, answers, n - 1) + BatchItem(base, p, name, paths, prefix, files, answers, n - 1).log
  }

  /** The number of the first `n` files of a batch that upload. */
  function BatchSuccesses(base: string -> string, p: Option<ProviderInstance>, name: string, paths: seq<string>, prefix: Option<string>,
                          files: map<string, FileFacts>, answers: seq<UploadAnswer>, n: nat): (c: nat)
    requires n <= |paths|
    ensures c <= n
  {
    if n == 0 then 0
    else BatchSuccesses(base, p, name, paths, prefix, files, answers, n - 1)
         + (if BatchItem(base, p, name, paths, prefix, files, answers, n - 1).ok then 1 else 0)
  }

  // ---------------------------------------------------------------------
  // The connection test

  /** What a provider's `test_connection` meets on the network: whether
      OSS's `get_bucket_info` raises, SM.MS's reply to `GET /profile`, and,
      for the providers whose modules are not part of this model, what
      their own test answers (None when it raises). */
  datatype Probe = Probe(bucketInfoRaises: bool, profile: Sms.Reply, other: Option<bool>)

  /** `provider.test_connection()` for a provider of class `cls`, inside
      the `try` of `test_provider`, where an exception reads as False. */
  function ConnectionTest(cls: ProviderClass, probe: Probe): bool
  {
    if cls == ProviderClass("OSSProvider") then Oss.TestConnection(probe.bucketInfoRaises)
    else if cls == ProviderClass("SMSProvider") then Sms.TestConnection(probe.profile)
    else probe.other == Some(true)
  }

  // ---------------------------------------------------------------------
  // The service

  class BackupService {
    const config: AppConfig
    const classes: ConfigClasses
    /** `provider_classes`: the service's own name-to-class table. */
    const providerClasses: Dict<ProviderClass>
    /** The metadata store's record log. */
    var history: seq<Record>

    /** The table is the built-in one. */
    ghost predicate Valid()
    {
      providerClasses == BuiltinTable
    }

    constructor (config: AppConfig, classes: ConfigClasses, history: seq<Record>)
      ensures Valid()
      ensures this.config == config && this.classes == classes && this.history == history
    {
      this.config := config;
      this.classes := classes;
      this.providerClasses := BuiltinTable;
      this.history := history;
    }

    /** `get_provider`: configured, enabled, valid and with a class in the
        table, checked in that order; nothing is cached. */
    function GetProvider(name: string): (p: Option<ProviderInstance>)
      ensures p.Some? <==>
        && Get(config.providers, name).Some?
        && Enabled(Get(config.providers, name).value)
        && classes.validate(Get(config.providers, name).value)
        && Get(providerClasses, name).Some?
      ensures p.Some? ==> p.value == ProviderInstance(Get(providerClasses, name).value, Get(config.providers, name).value)
    {
      var c := Get(config.providers, name);
      if c.None? || !Enabled(c.value) || !classes.validate(c.value) then None
      else
        match Get(providerClasses, name)
        case None => None
        case Some(cls) => Some(ProviderInstance(cls, c.value))
    }

    /** `test_provider`: False without a provider, otherwise the verdict of
        that provider's own connection test. */
    function TestProvider(name: string, probe: Probe): (ok: bool)
      ensures ok ==> GetProvider(name).Some?
    {
      var p := GetProvider(name);
      p.Some? && ConnectionTest(p.value.cls, probe)
    }

    /** `list_providers`: the table's names, which are the five supported
        ones in their fixed order. */
    function ListProviders(): (r: seq<string>)
      requires Valid()
      ensures r == Keys(providerClasses) && r == SupportedProviders
    {
      Keys(providerClasses)
    }

    /** `backup_images`, with the thread pool run in submission order.
        `listing` is what the provider's `list_images(limit)` yields,
        `existing` the names in the provider directory before the run,
        `scripts[k]` the download answers for the `k`-th scheduled image
        and `written` the files on disk when the records are made. The
        counters are the ones the summary shows. */
    method BackupImages(name: string, listing: Enumeration, skipExisting: bool, existing: set<string>,
                        scripts: seq<seq<Attempt>>, written: map<string, FileFacts>)
      returns (ok: bool, succeeded: nat, failed: nat, skipped: nat)
      modifies this
      ensures var run := BackupRun(Sanitize, GetProvider(name), name, listing, skipExisting, existing, config.maxConcurrentDownloads, config.retryCount, scripts, written);
        history == old(history) + run.log && ok == run.ok
      ensures GetProvider(name).Some? && config.maxConcurrentDownloads >= 1 && !listing.raised ==>
        && skipped == |SkippedImages(Sanitize, listing.items, skipExisting, existing)|
        && succeeded == SuccessCount(config.retryCount, scripts, |ScheduledImages(Sanitize, listing.items, skipExisting, existing)|)
        && succeeded + failed + skipped == |listing.items|
        && (ok <==> failed == 0)
    {
      var provider := GetProvider(name);
      if provider.None? {
        return false, 0, 0, 0;
      }
      ok, succeeded, failed, skipped := BackupWith(Sanitize, provider.value, name, listing, skipExisting, existing, scripts, written);
    }

    /** The body of `backup_images` once `provider` is resolved, with the
        destination of each image named by `dest`. The thread pool is built
        before the listing starts, and a pool size below 1 raises there. */
    method BackupWith(dest: string -> string, provider: ProviderInstance, name: string, listing: Enumeration,
                      skipExisting: bool, existing: set<string>, scripts: seq<seq<Attempt>>, written: map<string, FileFacts>)
      returns (ok: bool, succeeded: nat, failed: nat, skipped: nat)
      modifies this
      ensures var run := BackupRun(dest, Some(provider), name, listing, skipExisting, existing, config.maxConcurrentDownloads, config.retryCount, scripts, written);
        history == old(history) + run.log && ok == run.ok
      ensures config.maxConcurrentDownloads < 1 ==> !ok && succeeded == 0 && failed == 0 && skipped == 0
      ensures config.maxConcurrentDownloads >= 1 && !listing.raised ==>
        && skipped == |SkippedImages(dest, listing.items, skipExisting, existing)|
        && succeeded == SuccessCount(config.retryCount, scripts, |ScheduledImages(dest, listing.items, skipExisting, existing)|)
        && succeeded + failed + skipped == |listing.items|
        && (ok <==> failed == 0)
    {
      if config.maxConcurrentDownloads < 1 {
        return false, 0, 0, 0;
      }
      succeeded, failed := 0, 0;
      var tasks;
      tasks, skipped := Enumerate(dest, name, listing.items, skipExisting, existing);
      if listing.raised {
        return false, succeeded, failed, skipped;
      }
      succeeded, failed := Collect(dest, name, tasks, scripts, written);
      PartitionSizes(dest, listing.items, skipExisting, existing);
      CompletedRun(dest, provider, name, listing, skipExisting, existing, config.maxConcurrentDownloads, config.retryCount, scripts, written);
      ok := failed == 0;
    }

    /** The enumeration loop of `backup_images`: a skip record for each
        image already present, every other image scheduled. */
    method Enumerate(dest: string -> string, name: string, items: seq<ImageInfo>, skipExisting: bool, existing: set<string>)
      returns (tasks: seq<ImageInfo>, skipped: nat)
      modifies this
      ensures history == old(history) + SkipLog(dest, name, SkippedImages(dest, items, skipExisting, existing))
      ensures tasks == ScheduledImages(dest, items, skipExisting, existing)
      ensures skipped == |SkippedImages(dest, items, skipExisting, existing)|
    {
      tasks, skipped := [], 0;
      var i := 0;
      while i < |items|
        invariant i <= |items|
        invariant tasks == ScheduledImages(dest, items[..i], skipExisting, existing)
        invariant history == old(history) + SkipLog(dest, name, SkippedImages(dest, items[..i], skipExisting, existing))
        invariant skipped == |SkippedImages(dest, items[..i], skipExisting, existing)|
      {
        tasks, skipped := EnumerateNext(dest, name, items, skipExisting, existing, i, old(history), tasks, skipped);
        i := i + 1;
      }
      assert items[..i] == items;
    }

    /** One turn of the enumeration loop: the `i`-th image is skipped with a
        record or scheduled. */
    method EnumerateNext(dest: string -> string, name: string, items: seq<ImageInfo>, skipExisting: bool, existing: set<string>,
                         i: nat, ghost start: seq<Record>, tasks: seq<ImageInfo>, skipped: nat)
      returns (tasks': seq<ImageInfo>, skipped': nat)
      requires i < |items|
      requires tasks == ScheduledImages(dest, items[..i], skipExisting, existing)
      requires history == start + SkipLog(dest, name, SkippedImages(dest, items[..i], skipExisting, existing))
      requires skipped == |SkippedImages(dest, items[..i], skipExisting, existing)|
      modifies this
      ensures tasks' == ScheduledImages(dest, items[..i + 1], skipExisting, existing)
      ensures history == start + SkipLog(dest, name, SkippedImages(dest, items[..i + 1], skipExisting, existing))
      ensures skipped' == |SkippedImages(dest, items[..i + 1], skipExisting, existing)|
    {
      var x := items[i];
      EnumerationStep(dest, name, items, i, skipExisting, existing);
      if skipExisting && Present(existing, dest(x.filename)) {
        tasks', skipped' := tasks, skipped + 1;
        history := history + [SkipRecord(dest, name, x)];
      } else {
        tasks', skipped' := tasks + [x], skipped;
      }
    }

    /** The collecting loop of `backup_images`: each scheduled download is
        awaited in submission order and recorded. */
    method Collect(dest: string -> string, name: string, tasks: seq<ImageInfo>, scripts: seq<seq<Attempt>>, written: map<string, FileFacts>)
      returns (succeeded: nat, failed: nat)
      modifies this
      ensures history == old(history) + ResultLog(dest, name, tasks, config.retryCount, scripts, written, |tasks|)
      ensures succeeded == SuccessCount(config.retryCount, scripts, |tasks|) && succeeded + failed == |tasks|
    {
      succeeded, failed := 0, 0;
      var k := 0;
      while k < |tasks|
        invariant k <= |tasks|
        invariant history == old(history) + ResultLog(dest, name, tasks, config.retryCount, scripts, written, k)
        invariant succeeded == SuccessCount(config.retryCount, scripts, k) && succeeded + failed == k
      {
        succeeded, failed := CollectNext(dest, name, tasks, scripts, written, k, old(history), succeeded, failed);
        k := k + 1;
      }
    }

    /** One turn of the collecting loop: the `k`-th download is awaited and
        recorded. */
    method CollectNext(dest: string -> string, name: string, tasks: seq<ImageInfo>, scripts: seq<seq<Attempt>>,
                       written: map<string, FileFacts>, k: nat, ghost start: seq<Record>, succeeded: nat, failed: nat)
      returns (succeeded': nat, failed': nat)
      requires k < |tasks|
      requires history == start + ResultLog(dest, name, tasks, config.retryCount, scripts, written, k)
      requires succeeded == SuccessCount(config.retryCount, scripts, k)
      modifies this
      ensures history == start + ResultLog(dest, name, tasks, config.retryCount, scripts, written, k + 1)
      ensures succeeded' == SuccessCount(config.retryCount, scripts, k + 1)
      ensures succeeded' + failed' == succeeded + failed + 1
    {
      var done, _ := DownloadWithRetry(config.retryCount, ScriptAt(scripts, k));
      ResultLogStep(dest, name, tasks, config.retryCount, scripts, written, k);
      history := history + [ResultRecord(dest, name, tasks[k], done, written)];
      if done {
        succeeded', failed' := succeeded + 1, failed;
      } else {
        succeeded', failed' := succeeded, failed + 1;
      }
    }

    /** `upload_image`. `files` maps each existing local file to its hash
        and size; `answer` is what the provider's upload gives. */
    method UploadImage(name: string, path: string, remotePath: Option<string>,
                       files: map<string, FileFacts>, answer: UploadAnswer) returns (ok: bool)
      modifies this
      ensures var run := UploadRun(Name, GetProvider(name), name, path, remotePath, files, answer);
        history == old(history) + run.log && ok == run.ok
    {
      var provider := GetProvider(name);
      if provider.None? {
        return false;
      }
      ok := UploadWith(Name, provider.value, name, path, remotePath, files, answer);
    }

    /** The body of `upload_image` once `provider` is resolved. */
    method UploadWith(base: string -> string, provider: ProviderInstance, name: string, path: string, remotePath: Option<string>,
                      files: map<string, FileFacts>, answer: UploadAnswer) returns (ok: bool)
      modifies this
      ensures var run := UploadRun(base, Some(provider), name, path, remotePath, files, answer);
        history == old(history) + run.log && ok == run.ok
    {
      if path !in files {
        return false;
      }
      var facts := files[path];
      match answer {
        case UploadRaised =>
          return false;
        case UploadResult(success, message) =>
          var target := UploadTarget(base, path, remotePath);
          var status := if success then Succeeded else Failed;
          history := history + [Record(Upload, name, path, target, facts.hash, facts.size, status, Text(message))];
          return success;
      }
    }

    /** `upload_batch`: one upload per file, with the remote path
        `prefix + name` only when the prefix is non-empty. Each
        `upload_image` call resolves the provider again; the configuration
        does not change in between, so it resolves to the same one. */
    method UploadBatch(name: string, paths: seq<string>, prefix: Option<string>,
                       files: map<string, FileFacts>, answers: seq<UploadAnswer>)
      returns (ok: bool, succeeded: nat, failed: nat)
      modifies this
      ensures var p := GetProvider(name);
        && history == old(history) + (if p.None? then [] else BatchLog(Name, p, name, paths, prefix, files, answers, |paths|))
        && (p.None? ==> !ok)
        && (p.Some? ==> succeeded == BatchSuccesses(Name, p, name, paths, prefix, files, answers, |paths|)
                        && succeeded + failed == |paths| && (ok <==> failed == 0))
    {
      var provider := GetProvider(name);
      if provider.None? {
        return false, 0, 0;
      }
      ok, succeeded, failed := UploadEach(Name, provider.value, name, paths, prefix, files, answers);
    }

    /** The loop of `upload_batch`. */
    method UploadEach(base: string -> string, provider: ProviderInstance, name: string, paths: seq<string>, prefix: Option<string>,
                      files: map<string, FileFacts>, answers: seq<UploadAnswer>)
      returns (ok: bool, succeeded: nat, failed: nat)
      modifies this
      ensures history == old(history) + BatchLog(base, Some(provider), name, paths, prefix, files, answers, |paths|)
      ensures succeeded == BatchSuccesses(base, Some(provider), name, paths, prefix, files, answers, |paths|)
      ensures succeeded + failed == |paths| && (ok <==> failed == 0)
    {
      succeeded, failed := 0, 0;
      var k := 0;
      while k < |paths|
        invariant k <= |paths|
        invariant history == old(history) + BatchLog(base, Some(provider), name, paths, prefix, files, answers, k)
        invariant succeeded == BatchSuccesses(base, Some(provider), name, paths, prefix, files, answers, k)
        invariant succeeded + failed == k
      {
        succeeded, failed := UploadNext(base, provider, name, paths, prefix, files, answers, k, old(history), succeeded, failed);
        k := k + 1;
      }
      ok := failed == 0;
    }

    /** One turn of the loop of `upload_batch`: the `k`-th file is uploaded
        and counted. */
    method UploadNext(base: string -> string, provider: ProviderInstance, name: string, paths: seq<string>, prefix: Option<string>,
                      files: map<string, FileFacts>, answers: seq<UploadAnswer>, k: nat, ghost start: seq<Record>,
                      succeeded: nat, failed: nat)
      returns (succeeded': nat, failed': nat)
      requires k < |paths|
      requires history == start + BatchLog(base, Some(provider), name, paths, prefix, files, answers, k)
      requires succeeded == BatchSuccesses(base, Some(provider), name, paths, prefix, files, answers, k)
      modifies this
      ensures history == start + BatchLog(base, Some(provider), name, paths, prefix, files, answers, k + 1)
      ensures succeeded' == BatchSuccesses(base, Some(provider), name, paths, prefix, files, answers, k + 1)
      ensures succeeded' + failed' == succeeded + failed + 1
    {
      var remote := BatchRemote(base, prefix, paths[k]);
      var done := UploadWith(base, provider, name, paths[k], remote, files, UploadAnswerAt(answers, k));
      BatchStep(base, Some(provider), name, paths, prefix, files, answers, k);
      if done {
        succeeded', failed' := succeeded + 1, failed;
      } else {
        succeeded', failed' := succeeded, failed + 1;
      }
    }
  }

  // ---------------------------------------------------------------------
  // Properties of a run

  /** Every enumerated image is either skipped or scheduled, never both. */
  lemma {:induction false} PartitionSizes(dest: string -> string, xs: seq<ImageInfo>, skipExisting: bool, existing: set<string>)
    ensures |SkippedImages(dest, xs, skipExisting, existing)| + |ScheduledImages(dest, xs, skipExisting, existing)| == |xs|
  {
    if xs != [] {
      PartitionSizes(dest, xs[..|xs| - 1], skipExisting, existing);
    }
  }

  /** One turn of the enumeration loop. */
  lemma EnumerationStep(dest: string -> string, name: string, items: seq<ImageInfo>, i: nat, skipExisting: bool, existing: set<string>)
    requires i < |items|
    ensures var x := items[i];
      && SkippedImages(dest, items[..i + 1], skipExisting, existing)
         == SkippedImages(dest, items[..i], skipExisting, existing) + (if SkipsImage(dest, skipExisting, existing, x) then [x] else [])
      && ScheduledImages(dest, items[..i + 1], skipExisting, existing)
         == ScheduledImages(dest, items[..i], skipExisting, existing) + (if SkipsImage(dest, skipExisting, existing, x) then [] else [x])
      && SkipLog(dest, name, SkippedImages(dest, items[..i], skipExisting, existing) + [x])
         == SkipLog(dest, name, SkippedImages(dest, items[..i], skipExisting, existing)) + [SkipRecord(dest, name, x)]
  {
    assert items[..i + 1][..i] == items[..i];
  }

  /** One turn of the collecting loop. */
  lemma ResultLogStep(dest: string -> string, name: string, tasks: seq<ImageInfo>, retryCount: int, scripts: seq<seq<Attempt>>,
                      written: map<string, FileFacts>, k: nat)
    requires k < |tasks|
    ensures ResultLog(dest, name, tasks, retryCount, scripts, written, k + 1)
         == ResultLog(dest, name, tasks, retryCount, scripts, written, k)
            + [ResultRecord(dest, name, tasks[k], RetrySucceeds(retryCount, ScriptAt(scripts, k)), written)]
  {
  }

  /** A run with a provider and a complete listing: the skip records, then
      the results, and success when every scheduled download succeeds. */
  lemma CompletedRun(dest: string -> string, p: ProviderInstance, name: string, listing: Enumeration, skipExisting: bool,
                     existing: set<string>, workers: int, retryCount: int, scripts: seq<seq<Attempt>>, written: map<string, FileFacts>)
    requires !listing.raised && workers >= 1
    ensures var tasks := ScheduledImages(dest, listing.items, skipExisting, existing);
      BackupRun(dest, Some(p), name, listing, skipExisting, existing, workers, retryCount, scripts, written)
      == Run(SuccessCount(retryCount, scripts, |tasks|) == |tasks|,
             SkipLog(dest, name, SkippedImages(dest, listing.items, skipExisting, existing))
             + ResultLog(dest, name, tasks, retryCount, scripts, written, |tasks|))
  {
    SuccessCountFull(retryCount, scripts, |ScheduledImages(dest, listing.items, skipExisting, existing)|);
  }

  /** One turn of the batch loop. */
  lemma BatchStep(base: string -> string, p: Option<ProviderInstance>, name: string, paths: seq<string>,
                  prefix: Option<string>, files: map<string, FileFacts>, answers: seq<UploadAnswer>, k: nat)
    requires k < |paths|
    ensures var item := UploadRun(base, p, name, paths[k], BatchRemote(base, prefix, paths[k]), files, UploadAnswerAt(answers, k));
      && BatchLog(base, p, name, paths, prefix, files, answers, k + 1)
         == BatchLog(base, p, name, paths, prefix, files, answers, k) + item.log
      && BatchSuccesses(base, p, name, paths, prefix, files, answers, k + 1)
         == BatchSuccesses(base, p, name, paths, prefix, files, answers, k) + (if item.ok then 1 else 0)
  {
  }

  /** All downloads succeed exactly when the success count is full. */
  lemma {:induction false} SuccessCountFull(retryCount: int, scripts: seq<seq<Attempt>>, n: nat)
    ensures SuccessCount(retryCount, scripts, n) == n
        <==> forall j :: 0 <= j < n ==> RetrySucceeds(retryCount, ScriptAt(scripts, j))
  {
    if n > 0 {
      SuccessCountFull(retryCount, scripts, n - 1);
    }
  }

  /** Counting statuses distributes over concatenation. */
  lemma {:induction false} CountStatusAppend(a: seq<Record>, b: seq<Record>, s: Status)
    ensures CountStatus(a + b, s) == CountStatus(a, s) + CountStatus(b, s)
  {
    if b != [] {
      assert (a + b)[..|a + b| - 1] == a + b[..|b| - 1];
      CountStatusAppend(a, b[..|b| - 1], s);
    } else {
      assert a + b == a;
    }
  }

  /** The skip log holds only skip records. */
  lemma {:induction false} SkipLogCounts(dest: string -> string, name: string, xs: seq<ImageInfo>)
    ensures CountStatus(SkipLog(dest, name, xs), Skipped) == |xs|
    ensures CountStatus(SkipLog(dest, name, xs), Succeeded) == 0
    ensures CountStatus(SkipLog(dest, name, xs), Failed) == 0
  {
    if xs != [] {
      var init := xs[..|xs| - 1];
      SkipLogCounts(dest, name, init);
      assert SkipLog(dest, name, xs)[..|xs| - 1] == SkipLog(dest, name, init);
    }
  }

  /** The result log holds one success per successful download and one
      failure per failed one. */
  lemma {:induction false} ResultLogCounts(dest: string -> string, name: string, tasks: seq<ImageInfo>, retryCount: int,
                                           scripts: seq<seq<Attempt>>, written: map<string, FileFacts>, n: nat)
    requires n <= |tasks|
    ensures CountStatus(ResultLog(dest, name, tasks, retryCount, scripts, written, n), Succeeded) == SuccessCount(retryCount, scripts, n)
    ensures CountStatus(ResultLog(dest, name, tasks, retryCount, scripts, written, n), Failed) == n - SuccessCount(retryCount, scripts, n)
    ensures CountStatus(ResultLog(dest, name, tasks, retryCount, scripts, written, n), Skipped) == 0
  {
    if n > 0 {
      ResultLogCounts(dest, name, tasks, retryCount, scripts, written, n - 1);
      assert ResultLog(dest, name, tasks, retryCount, scripts, written, n)[..n - 1]
          == ResultLog(dest, name, tasks, retryCount, scripts, written, n - 1);
    }
  }

  /** One record per enumerated image: a run that gets its provider and a
      complete listing writes exactly as many records as the listing has
      images, and skipped + succeeded + failed records add up to that
      number. */
  lemma OneRecordPerImage(dest: string -> string, p: Option<ProviderInstance>, name: string, listing: Enumeration,
                          skipExisting: bool, existing: set<string>, workers: int, retryCount: int,
                          scripts: seq<seq<Attempt>>, written: map<string, FileFacts>)
    requires p.Some? && workers >= 1 && !listing.raised
    ensures var run := BackupRun(dest, p, name, listing, skipExisting, existing, workers, retryCount, scripts, written);
      var tasks := ScheduledImages(dest, listing.items, skipExisting, existing);
      && |run.log| == |listing.items|
      && CountStatus(run.log, Skipped) == |SkippedImages(dest, listing.items, skipExisting, existing)|
      && CountStatus(run.log, Succeeded) == SuccessCount(retryCount, scripts, |tasks|)
      && CountStatus(run.log, Skipped) + CountStatus(run.log, Succeeded) + CountStatus(run.log, Failed) == |listing.items|
  {
    var skipped := SkippedImages(dest, listing.items, skipExisting, existing);
    var tasks := ScheduledImages(dest, listing.items, skipExisting, existing);
    var skips := SkipLog(dest, name, skipped);
    var results := ResultLog(dest, name, tasks, retryCount, scripts, written, |tasks|);
    PartitionSizes(dest, listing.items, skipExisting, existing);
    SkipLogCounts(dest, name, skipped);
    ResultLogCounts(dest, name, tasks, retryCount, scripts, written, |tasks|);
    CountStatusAppend(skips, results, Skipped);
    CountStatusAppend(skips, results, Succeeded);
    CountStatusAppend(skips, results, Failed);
  }

  /** The skipped images are exactly the ones whose destination exists
      under `skip_existing`, the scheduled ones are the others, and
      together they are the listing, each image once. */
  lemma {:induction false} SkipDecision(dest: string -> string, xs: seq<ImageInfo>, skipExisting: bool, existing: set<string>)
    ensures forall x :: x in SkippedImages(dest, xs, skipExisting, existing) ==> x in xs && SkipsImage(dest, skipExisting, existing, x)
    ensures forall x :: x in ScheduledImages(dest, xs, skipExisting, existing) ==> x in xs && !SkipsImage(dest, skipExisting, existing, x)
    ensures multiset(SkippedImages(dest, xs, skipExisting, existing)) + multiset(ScheduledImages(dest, xs, skipExisting, existing))
         == multiset(xs)
  {
    if xs != [] {
      var init := xs[..|xs| - 1];
      SkipDecision(dest, init, skipExisting, existing);
      assert xs == init + [xs[|xs| - 1]];
    }
  }

  /** The order of the log: the skip records of the skipped images come
      first, in enumeration order, with hash "" and size 0; then one
      result per scheduled image in submission order, where a failure
      carries hash "" and size 0 and a success the written file's facts. */
  lemma RecordOrder(dest: string -> string, p: Option<ProviderInstance>, name: string, listing: Enumeration,
                    skipExisting: bool, existing: set<string>, workers: int, retryCount: int,
                    scripts: seq<seq<Attempt>>, written: map<string, FileFacts>)
    requires p.Some? && workers >= 1
    ensures var run := BackupRun(dest, p, name, listing, skipExisting, existing, workers, retryCount, scripts, written);
      var skipped := SkippedImages(dest, listing.items, skipExisting, existing);
      var tasks := ScheduledImages(dest, listing.items, skipExisting, existing);
      && |skipped| <= |run.log|
      && (forall i :: 0 <= i < |skipped| ==>
            run.log[i].status == Skipped && run.log[i].file == dest(skipped[i].filename)
            && run.log[i].fileHash == "" && run.log[i].fileSize == 0)
      && (forall i :: |skipped| <= i < |run.log| ==>
            var x := tasks[i - |skipped|];
            && run.log[i].status != Skipped && run.log[i].file == dest(x.filename)
            && (run.log[i].status == Failed ==> run.log[i].fileHash == "" && run.log[i].fileSize == 0)
            && (run.log[i].status == Succeeded && dest(x.filename) in written ==>
                  run.log[i].fileHash == written[dest(x.filename)].hash && run.log[i].fileSize == written[dest(x.filename)].size))
  {
  }

  /** A run succeeds exactly when it gets its provider and a thread pool,
      the listing completes, and no failure is recorded. Without a provider
      or a pool nothing is recorded; a listing that raises leaves only its
      skip records. */
  lemma OkIffNoFailure(dest: string -> string, p: Option<ProviderInstance>, name: string, listing: Enumeration,
                       skipExisting: bool, existing: set<string>, workers: int, retryCount: int,
                       scripts: seq<seq<Attempt>>, written: map<string, FileFacts>)
    ensures var run := BackupRun(dest, p, name, listing, skipExisting, existing, workers, retryCount, scripts, written);
      && (run.ok <==> p.Some? && workers >= 1 && !listing.raised && forall i :: 0 <= i < |run.log| ==> run.log[i].status != Failed)
      && (p.None? || workers < 1 ==> run.log == [])
      && (p.Some? && workers >= 1 && listing.raised ==> run.log == SkipLog(dest, name, SkippedImages(dest, listing.items, skipExisting, existing)))
  {
    var run := BackupRun(dest, p, name, listing, skipExisting, existing, workers, retryCount, scripts, written);
    if p.Some? && workers >= 1 && !listing.raised {
      var skipped := SkippedImages(dest, listing.items, skipExisting, existing);
      var tasks := ScheduledImages(dest, listing.items, skipExisting, existing);
      if !run.ok {
        var k :| 0 <= k < |tasks| && !RetrySucceeds(retryCount, ScriptAt(scripts, k));
        assert run.log[|skipped| + k].status == Failed;
      }
    }
  }

  /** An upload writes at most one record: none without a provider, a
      file or an answer, and otherwise one whose status is the answer's
      verdict and whose remote path is the one asked for or the file's
      name. */
  lemma UploadRecord(base: string -> string, p: Option<ProviderInstance>, name: string, path: string,
                     remotePath: Option<string>, files: map<string, FileFacts>, answer: UploadAnswer)
    ensures var run := UploadRun(base, p, name, path, remotePath, files, answer);
      && (run.log == [] <==> p.None? || path !in files || answer.UploadRaised?)
      && (run.ok ==> |run.log| == 1)
      && (|run.log| == 1 ==>
            && run.log[0].file == path && run.log[0].operation == Upload
            && run.log[0].fileHash == files[path].hash && run.log[0].fileSize == files[path].size
            && (run.log[0].status == Succeeded <==> run.ok)
            && run.log[0].remotePath == if remotePath.Some? && remotePath.value != "" then remotePath.value else base(path))
      && |run.log| <= 1
  {
  }

  /** Every record of a batch belongs to one of its files, counts as that
      file's success or failure, and names the remote path `prefix + name`
      exactly when the prefix is non-empty. */
  lemma BatchRecords(base: string -> string, p: Option<ProviderInstance>, name: string, paths: seq<string>,
                     prefix: Option<string>, files: map<string, FileFacts>, answers: seq<UploadAnswer>, n: nat)
    requires n <= |paths|
    ensures var log := BatchLog(base, p, name, paths, prefix, files, answers, n);
      && |log| <= n
      && CountStatus(log, Succeeded) == BatchSuccesses(base, p, name, paths, prefix, files, answers, n)
      && CountStatus(log, Skipped) == 0
      && forall i :: 0 <= i < |log| ==>
           && log[i].file in paths[..n] && log[i].operation == Upload
           && log[i].remotePath == if prefix.Some? && prefix.value != "" then prefix.value + base(log[i].file) else base(log[i].file)
  {
    BatchCounts(base, p, name, paths, prefix, files, answers, n);
    BatchFiles(base, p, name, paths, prefix, files, answers, n);
    var log := BatchLog(base, p, name, paths, prefix, files, answers, n);
    assert forall i :: 0 <= i < |log| ==> log[i] in log;
  }

  /** The upload of one file of a batch writes at most one record, an
      upload of that file to its batch remote path, counted as a success
      exactly when the upload succeeds. */
  lemma BatchItemRecord(base: string -> string, p: Option<ProviderInstance>, name: string, paths: seq<string>,
                        prefix: Option<string>, files: map<string, FileFacts>, answers: seq<UploadAnswer>, k: nat)
    requires k < |paths|
    ensures var item := BatchItem(base, p, name, paths, prefix, files, answers, k);
      && |item.log| <= 1
      && CountStatus(item.log, Succeeded) == (if item.ok then 1 else 0)
      && CountStatus(item.log, Skipped) == 0
      && forall r :: r in item.log ==>
           && r.file == paths[k] && r.operation == Upload
           && r.remotePath == if prefix.Some? && prefix.value != "" then prefix.value + base(r.file) else base(r.file)
  {
    var item := BatchItem(base, p, name, paths, prefix, files, answers, k);
    if item.log != [] {
      assert item.log[..0] == [];
    }
  }

  /** The counts of a batch's log: at most one record per file, one
      success per successful upload, no skips. */
  lemma BatchCounts(base: string -> string, p: Option<ProviderInstance>, name: string, paths: seq<string>,
                    prefix: Option<string>, files: map<string, FileFacts>, answers: seq<UploadAnswer>, n: nat)
    requires n <= |paths|
    ensures var log := BatchLog(base, p, name, paths, prefix, files, answers, n);
      && |log| <= n
      && CountStatus(log, Succeeded) == BatchSuccesses(base, p, name, paths, prefix, files, answers, n)
      && CountStatus(log, Skipped) == 0
  {
    BatchLength(base, p, name, paths, prefix, files, answers, n);
    BatchSucceeded(base, p, name, paths, prefix, files, answers, n);
    BatchNoSkips(base, p, name, paths, prefix, files, answers, n);
  }

  lemma {:induction false} BatchLength(base: string -> string, p: Option<ProviderInstance>, name: string, paths: seq<string>,
                                       prefix: Option<string>, files: map<string, FileFacts>, answers: seq<UploadAnswer>, n: nat)
    requires n <= |paths|
    ensures |BatchLog(base, p, name, paths, prefix, files, answers, n)| <= n
  {
    if n > 0 {
      BatchLength(base, p, name, paths, prefix, files, answers, n - 1);
      BatchItemShort(base, p, name, paths, prefix, files, answers, n - 1);
    }
  }

  lemma {:induction false} BatchSucceeded(base: string -> string, p: Option<ProviderInstance>, name: string, paths: seq<string>,
                                          prefix: Option<string>, files: map<string, FileFacts>, answers: seq<UploadAnswer>, n: nat)
    requires n <= |paths|
    ensures CountStatus(BatchLog(base, p, name, paths, prefix, files, answers, n), Succeeded)
         == BatchSuccesses(base, p, name, paths, prefix, files, answers, n)
  {
    if n > 0 {
      BatchSucceeded(base, p, name, paths, prefix, files, answers, n - 1);
      BatchItemSucceeded(base, p, name, paths, prefix, files, answers, n - 1);
      CountStatusAppend(BatchLog(base, p, name, paths, prefix, files, answers, n - 1),
                        BatchItem(base, p, name, paths, prefix, files, answers, n - 1).log, Succeeded);
    }
  }

  /** One file's upload records a success exactly when it succeeds. */
  lemma BatchItemSucceeded(base: string -> string, p: Option<ProviderInstance>, name: string, paths: seq<string>,
                           prefix: Option<string>, files: map<string, FileFacts>, answers: seq<UploadAnswer>, k: nat)
    requires k < |paths|
    ensures var item := BatchItem(base, p, name, paths, prefix, files, answers, k);
      CountStatus(item.log, Succeeded) == (if item.ok then 1 else 0)
  {
    var item := BatchItem(base, p, name, paths, prefix, files, answers, k);
    if item.log != [] {
      assert item.log[..0] == [];
    }
  }

  /** One file's upload writes at most one record. */
  lemma BatchItemShort(base: string -> string, p: Option<ProviderInstance>, name: string, paths: seq<string>,
                       prefix: Option<string>, files: map<string, FileFacts>, answers: seq<UploadAnswer>, k: nat)
    requires k < |paths|
    ensures |BatchItem(base, p, name, paths, prefix, files, answers, k).log| <= 1
  {
  }

  /** One file's upload records no skip. */
  lemma BatchItemNoSkip(base: string -> string, p: Option<ProviderInstance>, name: string, paths: seq<string>,
                        prefix: Option<string>, files: map<string, FileFacts>, answers: seq<UploadAnswer>, k: nat)
    requires k < |paths|
    ensures CountStatus(BatchItem(base, p, name, paths, prefix, files, answers, k).log, Skipped) == 0
  {
    var item := BatchItem(base, p, name, paths, prefix, files, answers, k);
    if item.log != [] {
      assert item.log[..0] == [];
    }
  }

  lemma {:induction false} BatchNoSkips(base: string -> string, p: Option<ProviderInstance>, name: string, paths: seq<string>,
                                        prefix: Option<string>, files: map<string, FileFacts>, answers: seq<UploadAnswer>, n: nat)
    requires n <= |paths|
    ensures CountStatus(BatchLog(base, p, name, paths, prefix, files, answers, n), Skipped) == 0
  {
    if n > 0 {
      BatchNoSkips(base, p, name, paths, prefix, files, answers, n - 1);
      BatchItemNoSkip(base, p, name, paths, prefix, files, answers, n - 1);
      CountStatusAppend(BatchLog(base, p, name, paths, prefix, files, answers, n - 1),
                        BatchItem(base, p, name, paths, prefix, files, answers, n - 1).log, Skipped);
    }
  }

  /** Each record of a batch's log is an upload of one of its files to that
      file's batch remote path. */
  lemma {:induction false} BatchFiles(base: string -> string, p: Option<ProviderInstance>, name: string, paths: seq<string>,
                                      prefix: Option<string>, files: map<string, FileFacts>, answers: seq<UploadAnswer>, n: nat)
    requires n <= |paths|
    ensures forall r :: r in BatchLog(base, p, name, paths, prefix, files, answers, n) ==>
              && r.file in paths[..n] && r.operation == Upload
              && r.remotePath == if prefix.Some? && prefix.value != "" then prefix.value + base(r.file) else base(r.file)
  {
    if n > 0 {
      BatchFiles(base, p, name, paths, prefix, files, answers, n - 1);
      BatchItemRecord(base, p, name, paths, prefix, files, answers, n - 1);
      assert paths[..n] == paths[..n - 1] + [paths[n - 1]];
    }
  }

  /** A batch succeeds exactly when every one of its uploads does. */
  lemma {:induction false} BatchOkIffAllUpload(base: string -> string, p: Option<ProviderInstance>, name: string, paths: seq<string>,
                                               prefix: Option<string>, files: map<string, FileFacts>, answers: seq<UploadAnswer>, n: nat)
    requires n <= |paths|
    ensures BatchSuccesses(base, p, name, paths, prefix, files, answers, n) == n
        <==> forall k :: 0 <= k < n ==> BatchItem(base, p, name, paths, prefix, files, answers, k).ok
  {
    if n > 0 {
      BatchOkIffAllUpload(base, p, name, paths, prefix, files, answers, n - 1);
    }
  }

  /** The service resolves a provider as the provider manager does for a
      constructor that does not raise: over the same configuration and the
      built-in table, the service finds a provider exactly when the manager
      constructs one, and it is the same instance. */
  lemma ServiceResolvesAsManager(svc: BackupService, m: ConfigManager, name: string)
    requires svc.Valid() && m.config == svc.config && m.classes == svc.classes
    ensures svc.GetProvider(name).Some? <==> Resolve(m, BuiltinTable, name, false).Constructed?
    ensures svc.GetProvider(name).Some? ==> svc.GetProvider(name).value == Resolve(m, BuiltinTable, name, false).instance
  {
  }

  /** Testing the OSS provider, once it resolves, passes exactly when the
      bucket-info request does not raise. */
  lemma OssTestIsBucketInfo(svc: BackupService, probe: Probe)
    requires svc.Valid() && svc.GetProvider("oss").Some?
    ensures svc.TestProvider("oss", probe) <==> !probe.bucketInfoRaises
  {
    assert Get(BuiltinTable, "oss") == Some(ProviderClass("OSSProvider"));
  }

  /** Testing the SM.MS provider, once it resolves, passes exactly when the
      profile request answers with status 200. */
  lemma SmsTestIsProfile(svc: BackupService, probe: Probe)
    requires svc.Valid() && svc.GetProvider("sms").Some?
    ensures svc.TestProvider("sms", probe) <==> probe.profile == Sms.Reply(200)
  {
    assert Get(BuiltinTable, "sms") == Some(ProviderClass("SMSProvider"));
  }
}
