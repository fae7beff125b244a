/** The command layer of cli.py: which providers `backup-all` runs and its
    exit status, the unknown-provider check that opens the provider
    commands, the candidate files of `upload-all`, and the status column of
    `list`. Console output is outside the model; a command's result is its
    exit status. */
module Cli {
  import opened Wrappers
  import opened PyDicts
  import opened Paths
  import opened Config
  import opened Images
  import opened Filenames
  import opened Backup
  import Registry
  import Sms

  // ---------------------------------------------------------------------
  // `backup-all`

  /** The names of the entries whose configuration `keep` accepts, in
      entry order. */
  function Selected(providers: Dict<ProviderConfig>, keep: ProviderConfig -> bool): seq<string>
  {
    if providers == [] then []
    else
      var init := Selected(providers[..|providers| - 1], keep);
      var (name, c) := providers[|providers| - 1];
      if keep(c) then init + [name] else init
  }

  /** A name is selected exactly when some entry with that name is kept. */
  lemma {:induction false} SelectedMembers(providers: Dict<ProviderConfig>, keep: ProviderConfig -> bool, n: string)
    ensures n in Selected(providers, keep) <==> exists i :: 0 <= i < |providers| && providers[i].0 == n && keep(providers[i].1)
  {
    if providers != [] {
      var init := providers[..|providers| - 1];
      SelectedMembers(init, keep, n);
      if exists i :: 0 <= i < |init| && init[i].0 == n && keep(init[i].1) {
        var i :| 0 <= i < |init| && init[i].0 == n && keep(init[i].1);
        assert providers[i] == init[i];
      }
      if exists i :: 0 <= i < |providers| && providers[i].0 == n && keep(providers[i].1) {
        var i :| 0 <= i < |providers| && providers[i].0 == n && keep(providers[i].1);
        if i < |init| {
          assert init[i] == providers[i];
        }
      }
    }
  }

  /** The selection keeps entry order: selecting from the first `m`
      entries gives a prefix of the whole selection. */
  lemma {:induction false} SelectedKeepsOrder(providers: Dict<ProviderConfig>, keep: ProviderConfig -> bool, m: nat)
    requires m <= |providers|
    ensures Selected(providers[..m], keep) <= Selected(providers, keep)
    decreases |providers|
  {
    if m < |providers| {
      var init := providers[..|providers| - 1];
      assert providers[..m] == init[..m];
      SelectedKeepsOrder(init, keep, m);
    } else {
      assert providers[..m] == providers;
    }
  }

  /** The providers `backup-all` runs: the configured ones that are enabled
      and pass validation, in configuration order. */
  function BackupTargets(providers: Dict<ProviderConfig>, classes: ConfigClasses): seq<string>
  {
    Selected(providers, c => Enabled(c) && classes.validate(c))
  }

  /** A name is a target exactly when it has an enabled, valid entry. */
  lemma BackupTargetsSpec(providers: Dict<ProviderConfig>, classes: ConfigClasses, n: string)
    ensures n in BackupTargets(providers, classes) <==>
      exists i :: 0 <= i < |providers| && providers[i].0 == n && Enabled(providers[i].1) && classes.validate(providers[i].1)
  {
    SelectedMembers(providers, c => Enabled(c) && classes.validate(c), n);
  }

  /** What one provider's `backup_images` call sees: the listing, the names
      already in its directory, the download answers and the files
      written. */
  datatype RunInputs = RunInputs(
    listing: Enumeration,
    existing: set<string>,
    scripts: seq<seq<Attempt>>,
    written: map<string, FileFacts>)

  function InputsAt(inputs: seq<RunInputs>, k: nat): RunInputs
  {
    if k < |inputs| then inputs[k] else RunInputs(Enumeration([], false), {}, [], map[])
  }

  /** The run of the `k`-th target. */
  function TargetRun(svc: BackupService, targets: seq<string>, skipExisting: bool, inputs: seq<RunInputs>, k: nat): Run
    requires k < |targets|
  {
    var x := InputsAt(inputs, k);
    BackupRun(Sanitize, svc.GetProvider(targets[k]), targets[k], x.listing, skipExisting, x.existing,
              svc.config.maxConcurrentDownloads, svc.config.retryCount, x.scripts, x.written)
  }

  /** The runs of the first `n` targets, in order. */
  function TargetRuns(svc: BackupService, targets: seq<string>, skipExisting: bool, inputs: seq<RunInputs>, n: nat): (r: seq<Run>)
    requires n <= |targets|
    ensures |r| == n
  {
    seq(n, k requires 0 <= k < n => TargetRun(svc, targets, skipExisting, inputs, k))
  }

  // The bookkeeping of the loop is stated for any sequence of runs: what
  // the loop adds up does not depend on how one run comes about.

  /** The records of the runs, in order. */
  function RunsLog(runs: seq<Run>): seq<Record>
  {
    if runs == [] then [] else RunsLog(runs[..|runs| - 1]) + runs[|runs| - 1].log
  }

  /** The number of runs that returned True. */
  function OkCount(runs: seq<Run>): nat
  {
    if runs == [] then 0 else OkCount(runs[..|runs| - 1]) + (if runs[|runs| - 1].ok then 1 else 0)
  }

  lemma RunsAppend(runs: seq<Run>, r: Run)
    ensures RunsLog(runs + [r]) == RunsLog(runs) + r.log
    ensures OkCount(runs + [r]) == OkCount(runs) + if r.ok then 1 else 0
  {
    assert (runs + [r])[..|runs|] == runs;
  }

  /** All runs succeeded exactly when all are counted. */
  lemma {:induction false} OkCountFull(runs: seq<Run>)
    ensures OkCount(runs) <= |runs|
    ensures OkCount(runs) == |runs| <==> forall k :: 0 <= k < |runs| ==> runs[k].ok
  {
    if runs != [] {
      var init := runs[..|runs| - 1];
      OkCountFull(init);
      assert forall k :: 0 <= k < |init| ==> init[k] == runs[k];
    }
  }

  /** `runs` are the targets' runs, position by position. */
  ghost predicate RunsOf(svc: BackupService, targets: seq<string>, skipExisting: bool, inputs: seq<RunInputs>, runs: seq<Run>)
  {
    && |runs| == |targets|
    && forall k {:trigger TargetRun(svc, targets, skipExisting, inputs, k)} ::
         0 <= k < |targets| ==> runs[k] == TargetRun(svc, targets, skipExisting, inputs, k)
  }

  /** `backup-all`: every target is backed up in order; the command exits
      1 before any backup when there is no target, and otherwise exactly
      when some backup failed. `inputs[k]` drives the `k`-th target. */
  method BackupAll(svc: BackupService, skipExisting: bool, inputs: seq<RunInputs>) returns (code: int)
    modifies svc
    ensures var targets := BackupTargets(svc.config.providers, svc.classes);
      var runs := TargetRuns(svc, targets, skipExisting, inputs, |targets|);
      && svc.history == old(svc.history) + RunsLog(runs)
      && (code == 0 || code == 1)
      && (code == 1 <==> targets == [] || exists k :: 0 <= k < |runs| && !runs[k].ok)
  {
    var targets := BackupTargets(svc.config.providers, svc.classes);
    if targets == [] {
      return 1;
    }
    ghost var runs := TargetRuns(svc, targets, skipExisting, inputs, |targets|);
    var succeeded := RunTargets(svc, targets, skipExisting, inputs, runs);
    OkCountFull(runs);
    code := if succeeded < |targets| then 1 else 0;
  }

  /** The loop of `backup-all` over its targets, counting the backups that
      returned True; `runs` are the targets' runs. */
  method RunTargets(svc: BackupService, targets: seq<string>, skipExisting: bool, inputs: seq<RunInputs>, ghost runs: seq<Run>)
    returns (succeeded: nat)
    requires RunsOf(svc, targets, skipExisting, inputs, runs)
    modifies svc
    ensures svc.history == old(svc.history) + RunsLog(runs)
    ensures succeeded == OkCount(runs)
  {
    succeeded := 0;
    var k := 0;
    while k < |targets|
      invariant k <= |targets|
      invariant svc.history == old(svc.history) + RunsLog(runs[..k])
      invariant succeeded == OkCount(runs[..k])
    {
      var ok := BackupTarget(svc, targets, skipExisting, inputs, k, runs);
      RunsAppend(runs[..k], runs[k]);
      assert runs[..k + 1] == runs[..k] + [runs[k]];
      if ok {
        succeeded := succeeded + 1;
      }
      k := k + 1;
    }
    assert runs[..k] == runs;
  }

  /** One turn of that loop: `backup_images` for the `k`-th target. */
  method BackupTarget(svc: BackupService, targets: seq<string>, skipExisting: bool, inputs: seq<RunInputs>, k: nat,
                      ghost runs: seq<Run>)
    returns (ok: bool)
    requires k < |targets| && RunsOf(svc, targets, skipExisting, inputs, runs)
    modifies svc
    ensures svc.history == old(svc.history) + runs[k].log && ok == runs[k].ok
  {
    assert runs[k] == TargetRun(svc, targets, skipExisting, inputs, k);
    var x := InputsAt(inputs, k);
    var s, f, n;
    ok, s, f, n := svc.BackupImages(targets[k], x.listing, skipExisting, x.existing, x.scripts, x.written);
  }

  /** On a configuration of supported names, the targets are exactly the
      configured names for which the service finds a provider: the
      selection of `backup-all` and the checks of `get_provider` agree. */
  lemma TargetsHaveProviders(svc: BackupService, n: string)
    requires svc.Valid() && WellFormed(svc.config.providers)
    requires forall m :: m in Keys(svc.config.providers) ==> m in SupportedProviders
    ensures n in BackupTargets(svc.config.providers, svc.classes) <==> svc.GetProvider(n).Some?
  {
    var ps := svc.config.providers;
    BackupTargetsSpec(ps, svc.classes, n);
    if svc.GetProvider(n).Some? {
      var i := IndexOfKey(ps, n);
      assert ps[i].1 == Get(ps, n).value by {
        GetAtIndex(ps, i);
      }
    }
    if n in BackupTargets(ps, svc.classes) {
      var i :| 0 <= i < |ps| && ps[i].0 == n && Enabled(ps[i].1) && svc.classes.validate(ps[i].1);
      GetAtIndex(ps, i);
      assert n in Keys(ps) by {
        assert Keys(ps)[i] == n;
      }
      BuiltinHasSupported(n);
    }
  }

  lemma BuiltinHasSupported(n: string)
    requires n in SupportedProviders
    ensures Get(Registry.BuiltinTable, n).Some?
  {
  }

  // ---------------------------------------------------------------------
  // The unknown-provider check of `backup`, `test`, `info`, `upload` and
  // `upload-all`

  /** `provider not in service.list_providers()`: such a command prints
      the known names and exits 1 before doing any work. */
  predicate Unknown(svc: BackupService, provider: string)
    requires svc.Valid()
  {
    provider !in svc.ListProviders()
  }

  /** `backup`: after the check, one `backup_images` run whose result is
      the exit status. */
  method BackupCommand(svc: BackupService, provider: string, skipExisting: bool, x: RunInputs) returns (code: int)
    requires svc.Valid()
    modifies svc
    ensures Unknown(svc, provider) ==> code == 1 && svc.history == old(svc.history)
    ensures !Unknown(svc, provider) ==>
      var run := BackupRun(Sanitize, svc.GetProvider(provider), provider, x.listing, skipExisting, x.existing,
                           svc.config.maxConcurrentDownloads, svc.config.retryCount, x.scripts, x.written);
      svc.history == old(svc.history) + run.log && (code == 0 <==> run.ok) && (code == 0 || code == 1)
  {
    if provider !in svc.ListProviders() {
      return 1;
    }
    var ok, _, _, _ := svc.BackupImages(provider, x.listing, skipExisting, x.existing, x.scripts, x.written);
    code := if ok then 0 else 1;
  }

  /** `test`: after the check, `test_provider`, whose verdict is the exit
      status; `probe` is what the provider's connection test meets. */
  method TestCommand(svc: BackupService, provider: string, probe: Probe) returns (code: int)
    requires svc.Valid()
    ensures code == 0 <==> !Unknown(svc, provider) && svc.TestProvider(provider, probe)
    ensures code == 0 || code == 1
    ensures svc.GetProvider(provider).None? ==> code == 1
    ensures provider == "oss" && svc.GetProvider("oss").Some? ==> (code == 0 <==> !probe.bucketInfoRaises)
    ensures provider == "sms" && svc.GetProvider("sms").Some? ==> (code == 0 <==> probe.profile == Sms.Reply(200))
  {
    if provider !in svc.ListProviders() {
      return 1;
    }
    var ok := svc.TestProvider(provider, probe);
    if provider == "oss" && svc.GetProvider("oss").Some? {
      OssTestIsBucketInfo(svc, probe);
    } else if provider == "sms" && svc.GetProvider("sms").Some? {
      SmsTestIsProfile(svc, probe);
    }
    code := if ok then 0 else 1;
  }

  /** `info`: after the check it only displays; the display is outside the
      model. */
  method InfoCommand(svc: BackupService, provider: string) returns (code: int)
    requires svc.Valid()
    ensures code == 1 <==> Unknown(svc, provider)
    ensures code == 0 || code == 1
  {
    if provider !in svc.ListProviders() {
      return 1;
    }
    code := 0;
  }

  /** The exit status of a command line that fails its argument checks
      (click's usage error). */
  const UsageError := 2

  /** `upload`: the argument parser first refuses a file that does not
      exist (`exists=True`); then the check, then one `upload_image` whose
      result is the exit status. `files` are the files on disk. */
  method UploadCommand(svc: BackupService, provider: string, path: string, remotePath: Option<string>,
                       files: map<string, FileFacts>, answer: UploadAnswer) returns (code: int)
    requires svc.Valid()
    modifies svc
    ensures path !in files ==> code == UsageError && svc.history == old(svc.history)
    ensures path in files && Unknown(svc, provider) ==> code == 1 && svc.history == old(svc.history)
    ensures path in files && !Unknown(svc, provider) ==>
      var run := UploadRun(Name, svc.GetProvider(provider), provider, path, remotePath, files, answer);
      svc.history == old(svc.history) + run.log && (code == 0 <==> run.ok) && (code == 0 || code == 1)
  {
    if path !in files {
      return UsageError;
    }
    if provider !in svc.ListProviders() {
      return 1;
    }
    var ok := svc.UploadImage(provider, path, remotePath, files, answer);
    code := if ok then 0 else 1;
  }

  // ---------------------------------------------------------------------
  // `upload-all`

  /** A file the directory glob found: its path and whether it is a
      regular file. */
  datatype Found = Found(path: string, isFile: bool)

  /** Membership in the ten lower-case suffixes `upload-all` accepts. */
  predicate IsUploadExtension(ext: string)
  {
    || ext == ".jpg" || ext == ".jpeg" || ext == ".png" || ext == ".gif" || ext == ".bmp"
    || ext == ".webp" || ext == ".svg" || ext == ".tiff" || ext == ".tif" || ext == ".ico"
  }

  /** `f.is_file() and f.suffix.lower() in image_extensions`. */
  predicate IsUploadFile(f: Found)
  {
    f.isFile && IsUploadExtension(Lower(Suffix(Name(f.path))))
  }

  /** The list comprehension over the glob result, for a file test
      `keep`: the kept paths in glob order. */
  function Candidates(keep: Found -> bool, found: seq<Found>): seq<string>
  {
    if found == [] then []
    else
      var init := Candidates(keep, found[..|found| - 1]);
      if keep(found[|found| - 1]) then init + [found[|found| - 1].path] else init
  }

  /** Exactly the kept files are candidates, none is added. */
  lemma {:induction false} CandidatesSpec(keep: Found -> bool, found: seq<Found>, p: string)
    ensures p in Candidates(keep, found) <==> exists i :: 0 <= i < |found| && found[i].path == p && keep(found[i])
    ensures |Candidates(keep, found)| <= |found|
  {
    if found != [] {
      var init := found[..|found| - 1];
      CandidatesSpec(keep, init, p);
      if exists i :: 0 <= i < |init| && init[i].path == p && keep(init[i]) {
        var i :| 0 <= i < |init| && init[i].path == p && keep(init[i]);
        assert found[i] == init[i];
      }
      if exists i :: 0 <= i < |found| && found[i].path == p && keep(found[i]) {
        var i :| 0 <= i < |found| && found[i].path == p && keep(found[i]);
        if i < |init| {
          assert init[i] == found[i];
        }
      }
    }
  }

  /** The candidates keep glob order: those of the first `m` found files
      are a prefix of all of them. */
  lemma {:induction false} CandidatesKeepOrder(keep: Found -> bool, found: seq<Found>, m: nat)
    requires m <= |found|
    ensures Candidates(keep, found[..m]) <= Candidates(keep, found)
    decreases |found|
  {
    if m < |found| {
      var init := found[..|found| - 1];
      assert found[..m] == init[..m];
      CandidatesKeepOrder(keep, init, m);
    } else {
      assert found[..m] == found;
    }
  }

  /** `files[:limit]` under `if limit:`; Python drops the last `-limit`
      files for a negative limit. */
  function Truncated(files: seq<string>, limit: Option<int>): (r: seq<string>)
    ensures r <= files
    ensures !Bounded(limit) ==> r == files
    ensures Bounded(limit) && limit.value > 0 ==> |r| == if limit.value < |files| then limit.value else |files|
    ensures Bounded(limit) && limit.value < 0 ==> |r| == if |files| + limit.value > 0 then |files| + limit.value else 0
  {
    if !Bounded(limit) then files
    else if limit.value >= 0 then Take(files, limit.value)
    else if |files| + limit.value > 0 then files[..|files| + limit.value]
    else []
  }

  /** `upload-all`: the argument parser first refuses a directory
      argument that is not an existing directory (`exists=True`,
      `file_okay=False`); then the check, then the candidates of the glob
      result `found`, cut by the limit; none left exits 1 without
      uploading, otherwise one `upload_batch` whose result is the exit
      status. */
  method UploadAllCommand(svc: BackupService, provider: string, isDirectory: bool, found: seq<Found>, prefix: Option<string>,
                          limit: Option<int>, files: map<string, FileFacts>, answers: seq<UploadAnswer>)
    returns (code: int, uploaded: seq<string>)
    requires svc.Valid()
    modifies svc
    ensures !isDirectory ==> code == UsageError && uploaded == [] && svc.history == old(svc.history)
    ensures isDirectory && Unknown(svc, provider) ==> code == 1 && uploaded == [] && svc.history == old(svc.history)
    ensures isDirectory && !Unknown(svc, provider) ==> uploaded == Truncated(Candidates(IsUploadFile, found), limit)
    ensures isDirectory && !Unknown(svc, provider) && uploaded == [] ==> code == 1 && svc.history == old(svc.history)
    ensures isDirectory && !Unknown(svc, provider) && uploaded != [] ==>
      var p := svc.GetProvider(provider);
      && svc.history == old(svc.history) + (if p.None? then [] else BatchLog(Name, p, provider, uploaded, prefix, files, answers, |uploaded|))
      && (code == 0 <==> p.Some? && BatchSuccesses(Name, p, provider, uploaded, prefix, files, answers, |uploaded|) == |uploaded|)
    ensures isDirectory ==> code == 0 || code == 1
  {
    if !isDirectory {
      return UsageError, [];
    }
    if provider !in svc.ListProviders() {
      return 1, [];
    }
    uploaded := Truncated(Candidates(IsUploadFile, found), limit);
    if uploaded == [] {
      return 1, uploaded;
    }
    var ok, _, _ := svc.UploadBatch(provider, uploaded, prefix, files, answers);
    code := if ok then 0 else 1;
  }

  // ---------------------------------------------------------------------
  // `list`

  /** The status column: Enabled exactly when the name has a configuration
      entry whose `enabled` is true. */
  function ListStatus(config: AppConfig, name: string): (enabled: bool)
  {
    match Get(config.providers, name)
    case None => false
    case Some(c) => Enabled(c)
  }

  /** `list` reads the same answer as `is_provider_enabled`. */
  lemma ListStatusIsEnabled(m: ConfigManager, name: string)
    ensures ListStatus(m.config, name) <==> m.IsProviderEnabled(name)
  {
  }

  /** The rows of `list`: every provider of the service's table with its
      status, in table order. */
  function ListRows(svc: BackupService): (rows: seq<(string, bool)>)
    requires svc.Valid()
    ensures |rows| == |SupportedProviders|
    ensures forall i :: 0 <= i < |rows| ==> rows[i] == (SupportedProviders[i], ListStatus(svc.config, SupportedProviders[i]))
  {
    var names := svc.ListProviders();
    seq(|names|, i requires 0 <= i < |names| => (names[i], ListStatus(svc.config, names[i])))
  }
}
