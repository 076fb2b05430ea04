/** The sequential upload pipeline of the dashboard (`processUploadQueue`,
    its `attemptUpload` closure and `showConflictModal`).

    With `concurrencyLimit` fixed at 1 a single worker walks the batch,
    claiming `fileArray[currentIndex++]`. A 409 from `api.upload` becomes the
    marker `{conflict: true, name}`; the user's answer to the conflict prompt
    decides whether one retry carrying a `resolution` field is sent. The
    `activeConflicts` promise chain serialises the prompts; once a callback on
    it throws, the chain stays rejected, so every later conflict in the batch
    fails at once without a prompt.

    The server and the user are oracles: for every file a `Script` says what
    the first attempt returns, what the prompt answers if it is shown, and
    what the retry returns if one is sent. */
module Upload {
  import opened Wrappers
  import opened JsStrings
  import opened Json
  import opened Api

  /** concurrencyLimit */
  const ConcurrencyLimit: nat := 1

  datatype Resolution = Replace | Duplicate | Skip

  /** The string the prompt resolves with, which is also the `resolution` field sent on a retry. */
  function ResolutionText(r: Resolution): string
  {
    match r
    case Replace => "replace"
    case Duplicate => "duplicate"
    case Skip => "skip"
  }

  /** What `await showConflictModal(name)` yields. */
  datatype Prompt =
    | NoModal                      // no #conflictModal on the page: resolves 'skip' at once
    | Answered(choice: Resolution) // the replace, duplicate or cancel (Skip) button was clicked
    | PromptBroken                 // the modal exists but an element the executor uses is missing: the promise rejects

  /** The oracle for one file. */
  datatype Script = Script(first: ApiResult, prompt: Prompt, retry: ApiResult)

  /** A batch as `processUploadQueue` sees it: the files, one script per file,
      and `currentFolderId` (null is None). */
  datatype Batch = Batch(files: seq<UploadFile>, scripts: seq<Script>, folder: Option<int>)
  {
    predicate Valid() { |files| == |scripts| }
  }

  /** What `await attemptUpload(...)` gives: a value (the conflict marker is
      one), undefined (the sign-out redirect), or a thrown error. */
  datatype Attempt = Value(v: Json) | Undefined | Threw(error: ApiError)

  /** `{ conflict: true, name: file.name }` */
  function ConflictMarker(name: string): Json
  {
    JObj(map["conflict" := JBool(true), "name" := JStr(name)])
  }

  /** attemptUpload's catch: an error whose status is 409 becomes the
      conflict marker, every other error is rethrown. */
  function AttemptOutcome(r: ApiResult, name: string): (a: Attempt)
    ensures a.Threw? <==> r.Failed? && Status(r.error) != Some(409)
    ensures a == Undefined <==> r.Redirected?
    ensures r.Failed? && Status(r.error) == Some(409) ==> a == Value(ConflictMarker(name))
    ensures r.Returned? ==> a == Value(r.value)
  {
    match r
    case Returned(v) => Value(v)
    case Redirected => Undefined
    case Failed(e) => if Status(e) == Some(409) then Value(ConflictMarker(name)) else Threw(e)
  }

  /** `result && result.conflict` */
  predicate IsConflict(a: Attempt)
  {
    a.Value? && Truthy(a.v) && MemberTruthy(Get(a.v, "conflict"))
  }

  /** The FormData that attemptUpload builds: the file, `folder_id` when
      `currentFolderId` is truthy, `resolution` when one is given. */
  function AttemptForm(file: UploadFile, folder: Option<int>, resolution: Option<Resolution>): (f: FormData)
    ensures |f| == 1 + (if folder.Some? && folder.value != 0 then 1 else 0) + (if resolution.Some? then 1 else 0)
    ensures f[0] == FormField("file", FileValue(file))
    ensures folder.Some? && folder.value != 0 ==> f[1] == FormField("folder_id", NumberValue(folder.value))
    ensures f[|f| - 1].name == "resolution" <==> resolution.Some?
    ensures resolution.Some? ==> f[|f| - 1] == FormField("resolution", TextValue(ResolutionText(resolution.value)))
  {
    [FormField("file", FileValue(file))]
    + (if folder.Some? && folder.value != 0 then [FormField("folder_id", NumberValue(folder.value))] else [])
    + (if resolution.Some? then [FormField("resolution", TextValue(ResolutionText(resolution.value)))] else [])
  }

  /** How one file ended: `completed++` ran, it was skipped, or the
      "Transfer failed" toast was shown. */
  datatype Disposition = Counted | Skipped | TransferFailed

  /** The record of one iteration of the worker loop: how the file ended,
      the resolution of the retry when one was sent, whether
      showConflictModal was called, and whether the chain is rejected after it. */
  datatype FileRun = FileRun(disposition: Disposition, retried: Option<Resolution>, asked: bool, chainRejected: bool)

  /** The FormData of every upload sent for `file` during `run`, in order:
      the plain attempt, then the retry if there was one. */
  function Sent(file: UploadFile, folder: Option<int>, run: FileRun): seq<FormData>
  {
    [AttemptForm(file, folder, None)] + if run.retried.Some? then [AttemptForm(file, folder, run.retried)] else []
  }

  /** One iteration of the worker loop for `file`, given whether
      `activeConflicts` is already rejected. */
  function RunFile(file: UploadFile, folder: Option<int>, s: Script, rejected: bool): FileRun
  {
    var first := AttemptOutcome(s.first, file.name);
    if first.Threw? then FileRun(TransferFailed, None, false, rejected)
    else if !IsConflict(first) then FileRun(Counted, None, false, rejected)
    else if rejected then FileRun(TransferFailed, None, false, true)
    else
      match s.prompt
      case PromptBroken => FileRun(TransferFailed, None, true, true)
      case NoModal => FileRun(Skipped, None, true, false)
      case Answered(choice) =>
        if choice == Skip then FileRun(Skipped, None, true, false)
        else if AttemptOutcome(s.retry, file.name).Threw? then FileRun(TransferFailed, Some(choice), true, true)
        else FileRun(Counted, Some(choice), true, false)
  }

  /** The pipeline's state after some files: the indices claimed so far (in
      order), `completed`, whether `activeConflicts` is rejected, the
      indices of the files reported as failed, and one record per file. */
  datatype Progress = Progress(
    claimed: seq<nat>,
    completed: nat,
    chainRejected: bool,
    failures: seq<nat>,
    runs: seq<FileRun>)

  /** Whether `activeConflicts` is rejected once the files recorded in
      `runs` have had their turn (it starts as a resolved promise). */
  function ChainAfter(runs: seq<FileRun>): bool
  {
    if runs == [] then false else runs[|runs| - 1].chainRejected
  }

  /** The records of the first `k` files of the batch, each file run from
      the chain state the files before it left. */
  function Runs(b: Batch, k: nat): (runs: seq<FileRun>)
    requires b.Valid() && k <= |b.files|
    ensures |runs| == k
  {
    if k == 0 then []
    else
      var before := Runs(b, k - 1);
      before + [RunFile(b.files[k - 1], b.folder, b.scripts[k - 1], ChainAfter(before))]
  }

  /** The number of records in `runs` that ended as `d`. */
  function CountOf(runs: seq<FileRun>, d: Disposition): nat
  {
    if runs == [] then 0
    else CountOf(runs[..|runs| - 1], d) + (if runs[|runs| - 1].disposition == d then 1 else 0)
  }

  /** The positions of the records in `runs` that ended as TransferFailed. */
  function FailedIndices(runs: seq<FileRun>): seq<nat>
  {
    if runs == [] then []
    else FailedIndices(runs[..|runs| - 1]) + (if runs[|runs| - 1].disposition == TransferFailed then [|runs| - 1] else [])
  }

  /** The indices `0, 1, ..., k - 1`. */
  function UpTo(k: nat): seq<nat>
  {
    if k == 0 then [] else UpTo(k - 1) + [k - 1]
  }

  /** The state after the first `k` files of the batch: `completed` counts
      the files that ended as Counted and the failure list names the files
      that ended as TransferFailed. */
  function Process(b: Batch, k: nat): Progress
    requires b.Valid() && k <= |b.files|
  {
    var runs := Runs(b, k);
    Progress(UpTo(k), CountOf(runs, Counted), ChainAfter(runs), FailedIndices(runs), runs)
  }

  lemma RunsNext(b: Batch, k: nat)
    requires b.Valid() && k < |b.files|
    ensures Runs(b, k + 1) == Runs(b, k) + [RunFile(b.files[k], b.folder, b.scripts[k], ChainAfter(Runs(b, k)))]
  {
    assert k + 1 - 1 == k;
  }

  lemma UpToNext(k: nat)
    ensures UpTo(k + 1) == UpTo(k) + [k]
  {
    assert k + 1 - 1 == k;
  }

  lemma Snoc(runs: seq<FileRun>, r: FileRun, d: Disposition)
    ensures CountOf(runs + [r], d) == CountOf(runs, d) + (if r.disposition == d then 1 else 0)
    ensures FailedIndices(runs + [r]) == FailedIndices(runs) + (if r.disposition == TransferFailed then [|runs|] else [])
    ensures ChainAfter(runs + [r]) == r.chainRejected
  {
    assert (runs + [r])[..|runs|] == runs;
  }

  /** Process, one file further: the step the worker loop takes. */
  lemma ProcessNext(b: Batch, k: nat)
    requires b.Valid() && k < |b.files|
    ensures var p := Process(b, k);
      var r := RunFile(b.files[k], b.folder, b.scripts[k], p.chainRejected);
      Process(b, k + 1) == Progress(
        p.claimed + [k],
        p.completed + (if r.disposition == Counted then 1 else 0),
        r.chainRejected,
        p.failures + (if r.disposition == TransferFailed then [k] else []),
        p.runs + [r])
  {
    RunsNext(b, k);
    var r := RunFile(b.files[k], b.folder, b.scripts[k], ChainAfter(Runs(b, k)));
    Snoc(Runs(b, k), r, Counted);
    UpToNext(k);
  }

  lemma {:induction false} CountsPartition(runs: seq<FileRun>)
    ensures CountOf(runs, Counted) + CountOf(runs, Skipped) + CountOf(runs, TransferFailed) == |runs|
  {
    if runs != [] {
      CountsPartition(runs[..|runs| - 1]);
    }
  }

  /** Indices 0..k-1 are claimed in order, each exactly once. */
  lemma {:induction false} ClaimedInOrder(k: nat)
    ensures |UpTo(k)| == k
    ensures forall i :: 0 <= i < k ==> UpTo(k)[i] == i
  {
    if k > 0 {
      ClaimedInOrder(k - 1);
    }
  }

  /** `completed` never exceeds the number of files taken. */
  lemma CompletedWithinBatch(b: Batch, k: nat)
    requires b.Valid() && k <= |b.files|
    ensures Process(b, k).completed <= k
  {
    CountsPartition(Runs(b, k));
  }

  /** The failure list holds, in increasing order, exactly the files that
      ended as TransferFailed: one entry per failed file, ... */
  lemma {:induction false} FailuresCounted(runs: seq<FileRun>)
    ensures |FailedIndices(runs)| == CountOf(runs, TransferFailed)
  {
    if runs != [] {
      FailuresCounted(runs[..|runs| - 1]);
    }
  }

  /** ... every entry the position of a failed record, ... */
  lemma {:induction false} FailuresAreFailedRuns(runs: seq<FileRun>)
    ensures var f := FailedIndices(runs);
      forall j :: 0 <= j < |f| ==> f[j] < |runs| && runs[f[j]].disposition == TransferFailed
  {
    if runs != [] {
      var before := runs[..|runs| - 1];
      FailuresAreFailedRuns(before);
      assert forall i :: 0 <= i < |before| ==> runs[i] == before[i];
      var f := FailedIndices(runs);
      assert forall j :: 0 <= j < |FailedIndices(before)| ==> f[j] == FailedIndices(before)[j];
    }
  }

  /** ... in increasing order, ... */
  lemma {:induction false} FailuresIncreasing(runs: seq<FileRun>)
    ensures var f := FailedIndices(runs);
      forall j, j' :: 0 <= j < j' < |f| ==> f[j] < f[j']
  {
    if runs != [] {
      var before := runs[..|runs| - 1];
      FailuresIncreasing(before);
      FailuresAreFailedRuns(before);
      var f := FailedIndices(runs);
      assert forall j :: 0 <= j < |FailedIndices(before)| ==> f[j] == FailedIndices(before)[j];
    }
  }

  /** ... and no failed record missing. */
  lemma {:induction false} FailedRunsListed(runs: seq<FileRun>)
    ensures forall i :: 0 <= i < |runs| && runs[i].disposition == TransferFailed ==> i in FailedIndices(runs)
  {
    if runs != [] {
      var before := runs[..|runs| - 1];
      FailedRunsListed(before);
      assert forall i :: 0 <= i < |before| ==> runs[i] == before[i];
    }
  }

  /** The records of a batch prefix are a prefix of the records. */
  lemma {:induction false} RunsPrefix(b: Batch, j: nat, k: nat)
    requires b.Valid() && j <= k <= |b.files|
    ensures Runs(b, k)[..j] == Runs(b, j)
  {
    if j < k {
      var prev := k - 1;
      RunsPrefix(b, j, prev);
      RunsNext(b, prev);
      assert prev + 1 == k;
      assert Runs(b, k)[..j] == Runs(b, prev)[..j];
    }
  }

  /** The record of file i is what one loop iteration gives for it, from the
      chain state left by the files before it. */
  lemma RunOfFile(b: Batch, k: nat, i: nat)
    requires b.Valid() && i < k <= |b.files|
    ensures Process(b, k).runs[i] == RunFile(b.files[i], b.folder, b.scripts[i], Process(b, i).chainRejected)
  {
    RunsPrefix(b, i + 1, k);
    RunsNext(b, i);
    assert Runs(b, k)[i] == Runs(b, k)[..i + 1][i];
  }

  /** A file's turn never clears a rejected chain. */
  lemma StaysRejected(b: Batch, k: nat)
    requires b.Valid() && k < |b.files|
    requires Process(b, k).chainRejected
    ensures Process(b, k + 1).chainRejected
  {
    ProcessNext(b, k);
    RunFileRejects(b.files[k], b.folder, b.scripts[k], true);
  }

  /** Once a callback on `activeConflicts` has thrown, the chain stays rejected
      for the rest of the batch. */
  lemma {:induction false} RejectionIsSticky(b: Batch, i: nat, j: nat)
    requires b.Valid() && i <= j <= |b.files|
    requires Process(b, i).chainRejected
    ensures Process(b, j).chainRejected
    decreases j - i
  {
    if i < j {
      StaysRejected(b, i);
      RejectionIsSticky(b, i + 1, j);
    }
  }

  /** A file leaves the chain rejected exactly when it was already rejected
      or the file was prompted and then failed. */
  lemma RunFileRejects(file: UploadFile, folder: Option<int>, s: Script, rejected: bool)
    ensures var r := RunFile(file, folder, s, rejected);
      r.chainRejected <==> rejected || (r.asked && r.disposition == TransferFailed)
  {
  }

  /** The chain is rejected exactly when some earlier file was prompted and
      then failed (its prompt rejected or its retry threw). */
  lemma {:induction false} RejectionCause(b: Batch, k: nat)
    requires b.Valid() && k <= |b.files|
    ensures Process(b, k).chainRejected <==>
      exists i :: 0 <= i < k && Process(b, k).runs[i].asked && Process(b, k).runs[i].disposition == TransferFailed
  {
    if k > 0 {
      var prev := k - 1;
      RejectionCause(b, prev);
      ProcessNext(b, prev);
      assert prev + 1 == k;
      var p := Process(b, prev);
      var q := Process(b, k);
      var r := q.runs[prev];
      RunFileRejects(b.files[prev], b.folder, b.scripts[prev], p.chainRejected);
      assert forall i :: 0 <= i < prev ==> q.runs[i] == p.runs[i];
      if q.chainRejected {
        if p.chainRejected {
          var i :| 0 <= i < prev && p.runs[i].asked && p.runs[i].disposition == TransferFailed;
          assert q.runs[i] == p.runs[i];
        } else {
          assert r.asked && r.disposition == TransferFailed;
        }
      }
    }
  }

  /** A first attempt that neither throws nor reports a conflict (a plain
      result, a second-class `undefined` from the sign-out redirect) adds
      exactly one to `completed`, sends nothing more and prompts no one. */
  lemma NonConflictCounts(b: Batch, i: nat)
    requires b.Valid() && i < |b.files|
    requires var a := AttemptOutcome(b.scripts[i].first, b.files[i].name); !a.Threw? && !IsConflict(a)
    ensures var r := Process(b, i + 1).runs[i];
      r.disposition == Counted && !r.asked && r.retried == None
    ensures Process(b, i + 1).completed == Process(b, i).completed + 1
    ensures Process(b, i + 1).chainRejected == Process(b, i).chainRejected
  {
    ProcessNext(b, i);
  }

  /** A first attempt that throws anything but a 409 is reported as a
      failure, leaves `completed` and the chain as they were, and prompts no
      one; the loop goes on with the next index. */
  lemma ThrownFirstAttemptFails(b: Batch, i: nat)
    requires b.Valid() && i < |b.files|
    requires AttemptOutcome(b.scripts[i].first, b.files[i].name).Threw?
    ensures var r := Process(b, i + 1).runs[i];
      r.disposition == TransferFailed && !r.asked && r.retried == None
    ensures Process(b, i + 1).completed == Process(b, i).completed
    ensures Process(b, i + 1).chainRejected == Process(b, i).chainRejected
    ensures Process(b, i + 1).failures == Process(b, i).failures + [i]
  {
    ProcessNext(b, i);
  }

  /** On a conflict with the chain intact, a skip (the cancel button, or no
      modal on the page) sends no retry and leaves `completed` unchanged. */
  lemma SkipSendsNoRetry(b: Batch, i: nat)
    requires b.Valid() && i < |b.files|
    requires IsConflict(AttemptOutcome(b.scripts[i].first, b.files[i].name))
    requires !Process(b, i).chainRejected
    requires b.scripts[i].prompt == NoModal || b.scripts[i].prompt == Answered(Skip)
    ensures var r := Process(b, i + 1).runs[i];
      r.disposition == Skipped && r.asked && r.retried == None
    ensures Process(b, i + 1).completed == Process(b, i).completed
    ensures !Process(b, i + 1).chainRejected
  {
    ProcessNext(b, i);
  }

  /** On a conflict with the chain intact, a conflict modal that cannot be
      shown (its promise rejects) sends no retry, reports the file as
      failed, leaves `completed` unchanged and rejects the chain. */
  lemma BrokenPromptFails(b: Batch, i: nat)
    requires b.Valid() && i < |b.files|
    requires IsConflict(AttemptOutcome(b.scripts[i].first, b.files[i].name))
    requires !Process(b, i).chainRejected
    requires b.scripts[i].prompt == PromptBroken
    ensures var r := Process(b, i + 1).runs[i];
      r.disposition == TransferFailed && r.asked && r.retried == None
    ensures Process(b, i + 1).completed == Process(b, i).completed
    ensures Process(b, i + 1).chainRejected
    ensures Process(b, i + 1).failures == Process(b, i).failures + [i]
  {
    ProcessNext(b, i);
  }

  /** On a conflict with the chain intact, replace or duplicate sends exactly
      one retry carrying that resolution. Whenever the retry returns (even
      with a second 409, or undefined) `completed` goes up by one; when it
      throws, the file fails and the chain becomes rejected. */
  lemma ResolutionSendsOneRetry(b: Batch, i: nat, choice: Resolution)
    requires b.Valid() && i < |b.files|
    requires IsConflict(AttemptOutcome(b.scripts[i].first, b.files[i].name))
    requires !Process(b, i).chainRejected
    requires b.scripts[i].prompt == Answered(choice) && choice != Skip
    ensures var r := Process(b, i + 1).runs[i];
      r.asked && r.retried == Some(choice)
    ensures var retried := AttemptOutcome(b.scripts[i].retry, b.files[i].name);
      if retried.Threw? then
        Process(b, i + 1).runs[i].disposition == TransferFailed
        && Process(b, i + 1).completed == Process(b, i).completed
        && Process(b, i + 1).chainRejected
      else
        Process(b, i + 1).runs[i].disposition == Counted
        && Process(b, i + 1).completed == Process(b, i).completed + 1
        && !Process(b, i + 1).chainRejected
  {
    ProcessNext(b, i);
  }

  /** After the chain is rejected, every later file whose first attempt is a
      conflict fails with no prompt and no retry. */
  lemma ConflictAfterRejectionFails(b: Batch, i: nat, j: nat)
    requires b.Valid() && i <= j < |b.files|
    requires Process(b, i).chainRejected
    requires IsConflict(AttemptOutcome(b.scripts[j].first, b.files[j].name))
    ensures var r := Process(b, |b.files|).runs[j];
      r.disposition == TransferFailed && !r.asked && r.retried == None
  {
    RejectionIsSticky(b, i, j);
    RunOfFile(b, |b.files|, j);
  }

  /** One turn sends the plain upload first, and a second upload only after
      a conflict prompt answered with replace or duplicate, carrying that
      answer. */
  lemma TurnSends(file: UploadFile, folder: Option<int>, s: Script, rejected: bool)
    ensures var r := RunFile(file, folder, s, rejected);
      var sent := Sent(file, folder, r);
      1 <= |sent| <= 2
      && sent[0] == AttemptForm(file, folder, None)
      && (|sent| == 2 ==>
            r.asked && !rejected && s.prompt.Answered? && s.prompt.choice != Skip
            && sent[1] == AttemptForm(file, folder, Some(s.prompt.choice)))
  {
  }

  /** Every file of a batch sends one or two uploads, and two only after a
      prompt was answered with replace or duplicate. */
  lemma AtMostOneRetry(b: Batch, k: nat, i: nat)
    requires b.Valid() && i < k <= |b.files|
    ensures var r := Process(b, k).runs[i];
      var sent := Sent(b.files[i], b.folder, r);
      1 <= |sent| <= 2
      && sent[0] == AttemptForm(b.files[i], b.folder, None)
      && (|sent| == 2 ==>
            r.asked && b.scripts[i].prompt.Answered? && b.scripts[i].prompt.choice != Skip
            && sent[1] == AttemptForm(b.files[i], b.folder, Some(b.scripts[i].prompt.choice)))
  {
    RunOfFile(b, k, i);
    TurnSends(b.files[i], b.folder, b.scripts[i], Process(b, i).chainRejected);
  }

  /** The reply of a server that accepts the upload. */
  const Accepted: ApiResult := Returned(JObj(map["success" := JBool(true)]))

  /** The reply of a server that reports a naming conflict. */
  const Conflict409: ApiResult := Failed(HttpError("File already exists", 409))

  /** Three files, no name collisions: all three are counted and no prompt is shown. */
  lemma ScenarioNoCollisions(f0: UploadFile, f1: UploadFile, f2: UploadFile, folder: Option<int>)
    ensures var b := Batch([f0, f1, f2], [Script(Accepted, NoModal, Accepted), Script(Accepted, NoModal, Accepted),
                                          Script(Accepted, NoModal, Accepted)], folder);
      var p := Process(b, 3);
      p.completed == 3 && p.failures == [] && forall i :: 0 <= i < 3 ==> !p.runs[i].asked
  {
    var b := Batch([f0, f1, f2], [Script(Accepted, NoModal, Accepted), Script(Accepted, NoModal, Accepted),
                                  Script(Accepted, NoModal, Accepted)], folder);
    ProcessNext(b, 0);
    ProcessNext(b, 1);
    ProcessNext(b, 2);
  }

  /** Two files, the first collides and the user picks replace: one prompt,
      one retry, both files counted. */
  lemma ScenarioReplace(f0: UploadFile, f1: UploadFile, folder: Option<int>)
    ensures var b := Batch([f0, f1], [Script(Conflict409, Answered(Replace), Accepted),
                                      Script(Accepted, NoModal, Accepted)], folder);
      var p := Process(b, 2);
      p.completed == 2 && p.runs[0].asked && !p.runs[1].asked && p.runs[0].retried == Some(Replace)
      && Sent(f0, folder, p.runs[0])[1] == AttemptForm(f0, folder, Some(Replace))
  {
    var b := Batch([f0, f1], [Script(Conflict409, Answered(Replace), Accepted),
                              Script(Accepted, NoModal, Accepted)], folder);
    assert IsConflict(AttemptOutcome(Conflict409, f0.name));
    ProcessNext(b, 0);
    ProcessNext(b, 1);
  }

  /** One file that collides and is skipped: nothing counted, no retry. */
  lemma ScenarioSkip(f0: UploadFile, folder: Option<int>)
    ensures var b := Batch([f0], [Script(Conflict409, Answered(Skip), Accepted)], folder);
      var p := Process(b, 1);
      p.completed == 0 && p.runs[0].disposition == Skipped && p.runs[0].retried == None
  {
    var b := Batch([f0], [Script(Conflict409, Answered(Skip), Accepted)], folder);
    assert IsConflict(AttemptOutcome(Conflict409, f0.name));
    ProcessNext(b, 0);
  }

  /** Two files, the first fails in transit: the second is still uploaded
      and counted. */
  lemma ScenarioNetworkFailure(f0: UploadFile, f1: UploadFile, folder: Option<int>)
    ensures var b := Batch([f0, f1], [Script(Failed(FetchFailed), NoModal, Accepted),
                                      Script(Accepted, NoModal, Accepted)], folder);
      var p := Process(b, 2);
      p.completed == 1 && p.failures == [0] && p.runs[1].disposition == Counted
  {
    var b := Batch([f0, f1], [Script(Failed(FetchFailed), NoModal, Accepted),
                              Script(Accepted, NoModal, Accepted)], folder);
    ProcessNext(b, 0);
    ProcessNext(b, 1);
  }

  /** Two colliding files; the retry of the first throws a server error, so
      the second fails at once although the user was never asked about it. */
  lemma ScenarioRejectedChain(f0: UploadFile, f1: UploadFile, folder: Option<int>)
    ensures var b := Batch([f0, f1], [Script(Conflict409, Answered(Duplicate), Failed(HttpError("Server error", 500))),
                                      Script(Conflict409, Answered(Replace), Accepted)], folder);
      var p := Process(b, 2);
      p.completed == 0 && p.failures == [0, 1] && p.runs[0].asked && !p.runs[1].asked
      && p.runs[1].retried == None && p.chainRejected
  {
    var b := Batch([f0, f1], [Script(Conflict409, Answered(Duplicate), Failed(HttpError("Server error", 500))),
                              Script(Conflict409, Answered(Replace), Accepted)], folder);
    assert IsConflict(AttemptOutcome(Conflict409, f0.name));
    assert IsConflict(AttemptOutcome(Conflict409, f1.name));
    ProcessNext(b, 0);
    ProcessNext(b, 1);
  }

  /** A toast the pipeline shows: its type and its text. */
  datatype Notice = Notice(kind: string, text: string)

  function StartNotice(total: nat): Notice
  {
    Notice("info", "Initiating sequential sync for " + NatToDecimal(total) + " item(s)...")
  }

  function FailureNotice(file: UploadFile): Notice
  {
    Notice("error", "Transfer failed: " + file.name)
  }

  function DoneNotice(completed: nat): Notice
  {
    Notice("success", "Vault synchronized: " + NatToDecimal(completed) + " items secured.")
  }

  /** The "Transfer failed" toasts shown for the files recorded in `runs`,
      in the order of the files. */
  function FailureNotices(files: seq<UploadFile>, runs: seq<FileRun>): seq<Notice>
    requires |runs| <= |files|
  {
    if runs == [] then []
    else
      var k := |runs| - 1;
      FailureNotices(files, runs[..k]) + (if runs[k].disposition == TransferFailed then [FailureNotice(files[k])] else [])
  }

  lemma FailureNoticesNext(shown: seq<Notice>, files: seq<UploadFile>, runs: seq<FileRun>, r: FileRun)
    requires |runs| < |files|
    ensures shown + FailureNotices(files, runs + [r])
            == (shown + FailureNotices(files, runs))
               + (if r.disposition == TransferFailed then [FailureNotice(files[|runs|])] else [])
  {
    assert (runs + [r])[..|runs|] == runs;
  }

  /** The j-th failure toast names the j-th file on the failure list. */
  lemma {:induction false} FailureNoticesNameFailures(files: seq<UploadFile>, runs: seq<FileRun>)
    requires |runs| <= |files|
    ensures var f := FailedIndices(runs);
      |FailureNotices(files, runs)| == |f|
      && forall j :: 0 <= j < |f| ==> f[j] < |files| && FailureNotices(files, runs)[j] == FailureNotice(files[f[j]])
  {
    FailuresAreFailedRuns(runs);
    if runs != [] {
      var k := |runs| - 1;
      var before := runs[..k];
      FailureNoticesNameFailures(files, before);
      var f := FailedIndices(runs);
      assert forall j :: 0 <= j < |FailedIndices(before)| ==> f[j] == FailedIndices(before)[j];
    }
  }

  /** One turn of the worker for `file`: the first `attemptUpload`, and on
      a conflict the prompt behind `activeConflicts` and at most one retry.
      `rejected` says whether `activeConflicts` has already rejected. The
      uploads the turn sends are `Sent(file, folder, run)`. This is the loop
      body as the source runs it; what a turn promises is proved about
      `RunFile`, which its ensures ties it to. */
  method HandleFile(file: UploadFile, folder: Option<int>, s: Script, rejected: bool)
    returns (run: FileRun)
    ensures run == RunFile(file, folder, s, rejected)
  {
    var chainRejected := rejected;
    var retry: Option<Resolution> := None;
    var asked := false;
    var disposition: Disposition;
    var result := AttemptOutcome(s.first, file.name);
    if result.Threw? {
      disposition := TransferFailed;
    } else if IsConflict(result) {
      if chainRejected {
        // `.then` on a rejected promise skips the callback and rejects again
        disposition := TransferFailed;
      } else {
        asked := true;
        match s.prompt
        case PromptBroken =>
          disposition := TransferFailed;
          chainRejected := true;
        case NoModal =>
          disposition := Skipped;
        case Answered(choice) =>
          if choice == Skip {
            disposition := Skipped;
          } else {
            retry := Some(choice);
            var retried := AttemptOutcome(s.retry, file.name);
            if retried.Threw? {
              disposition := TransferFailed;
              chainRejected := true;
            } else {
              disposition := Counted; // counted even when the retry meets a second 409
            }
          }
      }
    } else {
      disposition := Counted; // any non-conflict value, undefined included
    }
    run := FileRun(disposition, retry, asked, chainRejected);
  }

  /** `uploadWorker`: claims `fileArray[currentIndex++]` until the batch is
      exhausted, one file per turn, after the notices already `shown`. */
  method UploadWorker(files: seq<UploadFile>, scripts: seq<Script>, folder: Option<int>, shown: seq<Notice>)
    returns (p: Progress, notices: seq<Notice>)
    requires |files| == |scripts|
    ensures p == Process(Batch(files, scripts, folder), |files|)
    ensures notices == shown + FailureNotices(files, p.runs)
  {
    ghost var b := Batch(files, scripts, folder);
    notices := shown;
    var completed: nat := 0;
    var currentIndex: nat := 0;
    var chainRejected := false; // activeConflicts has rejected
    var claimed: seq<nat> := [];
    var failures: seq<nat> := [];
    var runs: seq<FileRun> := [];
    while currentIndex < |files|
      invariant currentIndex <= |files|
      invariant runs == Runs(b, currentIndex)
      invariant claimed == UpTo(currentIndex)
      invariant completed == CountOf(runs, Counted)
      invariant chainRejected == ChainAfter(runs)
      invariant failures == FailedIndices(runs)
      invariant notices == shown + FailureNotices(files, runs)
    {
      var i := currentIndex;
      currentIndex := currentIndex + 1;
      claimed := claimed + [i];
      var file := files[i];
      var run := HandleFile(file, folder, scripts[i], chainRejected);
      chainRejected := run.chainRejected;
      if run.disposition == Counted {
        completed := completed + 1;
      }
      if run.disposition == TransferFailed {
        failures := failures + [i];
        notices := notices + [FailureNotice(file)];
      }
      FailureNoticesNext(shown, files, runs, run);
      RunsNext(b, i);
      UpToNext(i);
      Snoc(runs, run, Counted);
      runs := runs + [run];
    }
    p := Progress(claimed, completed, chainRejected, failures, runs);
  }

  /** `processUploadQueue(files)`: announces the batch, runs the single
      worker over it and reports the result. `refresh` stands for the final
      `loadFiles(true)`. */
  method ProcessUploadQueue(files: seq<UploadFile>, scripts: seq<Script>, folder: Option<int>)
    returns (p: Progress, notices: seq<Notice>, refresh: bool)
    requires |files| == |scripts|
    ensures p == Process(Batch(files, scripts, folder), |files|)
    ensures notices == [StartNotice(|files|)] + FailureNotices(files, p.runs)
                       + (if p.completed > 0 then [DoneNotice(p.completed)] else [])
    ensures refresh <==> p.completed > 0
  {
    notices := [StartNotice(|files|)];
    var workers := if ConcurrencyLimit < |files| then ConcurrencyLimit else |files|;
    if workers > 0 {
      p, notices := UploadWorker(files, scripts, folder, notices);
    } else {
      p := Progress([], 0, false, [], []);
      assert notices == [StartNotice(|files|)] + FailureNotices(files, p.runs);
    }
    if p.completed > 0 {
      notices := notices + [DoneNotice(p.completed)];
    }
    refresh := p.completed > 0;
  }
}
