/** The request handler and its three actions as effect traces: each
    collaborator call the code makes is recorded in order, and the answers
    of the collaborators (the object store, the layer service, pip, `du`,
    the directory walk) are given as a `World`. */
module Handler {
  import opened Py
  import Validator
  import PackageListing
  import SizeGuard
  import Archive

  /** What the collaborators answer during one invocation. */
  datatype World = World(
    bucketReachable: bool,             // the one-object listing of the bucket succeeds
    lambdaReachable: bool,             // listing the functions succeeds
    versions: seq<int>,                // the Version of each entry of "LayerVersions", as listed
    duOutput: string,                  // what `du -sh` prints for the staging folder
    pipList: string,                   // what `pip list --path` prints for the staging folder
    walk: seq<Archive.WalkStep>,       // what walking the staging folder yields
    uploadError: Option<string>,       // the exception the upload raises, if it fails
    publishedArn: Option<string>)      // the new version's ARN; None when publishing raises

  /** One call to a collaborator. */
  datatype Effect =
    | ProbeBucket
    | ProbeLambda
    | ListVersions(layer: Value)
    | GetVersion(layer: Value, version: int)
    | Download
    | Unpack
    | ClearScratch
    | MakeStaging
    | Install(library: Value)
    | MeasureSize
    | ListPackages
    | Zip(entries: seq<string>)
    | Upload
    | Publish(layer: Value, bucket: Value)

  /** The kinds of effect, numbered in the order a request passes them. */
  function Rank(e: Effect): nat {
    match e
    case ProbeBucket => 0
    case ProbeLambda => 1
    case ListVersions(_) => 2
    case GetVersion(_, _) => 3
    case Download => 4
    case Unpack => 5
    case ClearScratch => 6
    case MakeStaging => 7
    case Install(_) => 8
    case MeasureSize => 9
    case ListPackages => 10
    case Zip(_) => 11
    case Upload => 12
    case Publish(_, _) => 13
  }

  const ListRank: nat := 2
  const FetchRank: nat := 3
  const StageRank: nat := 6
  const InstallRank: nat := 8
  const MeasureRank: nat := 9
  const ZipRank: nat := 11
  const UploadRank: nat := 12
  const PublishRank: nat := 13

  /** No effect ever follows one of a later kind: probes come first, then
      the version lookup, staging, installs, the size check, and only then
      zip, upload and publish. */
  ghost predicate Ordered(t: seq<Effect>) {
    forall i, j :: 0 <= i < j < |t| ==> Rank(t[i]) <= Rank(t[j])
  }

  /** Some effect of `t` is of the kind numbered `rank`. */
  predicate Occurs(t: seq<Effect>, rank: nat) {
    exists e :: e in t && Rank(e) == rank
  }

  /** The libraries installed, in order. */
  function InstallsOf(t: seq<Effect>): seq<Value> {
    if t == [] then []
    else (if t[0].Install? then [t[0].library] else []) + InstallsOf(t[1..])
  }

  /** The value a Python call returns, or the exception it raises. */
  datatype Reply =
    | Message(text: string)
    | UploadFailed(detail: string)          // `{"ERROR: ": e}`
    | LayerArn(arn: string)
    | Packages(listing: PackageListing.Listing)
    | Wrapped(key: string, inner: Reply)      // `{key: inner}`
    | NoReply                               // `None`

  datatype Outcome = Returned(reply: Reply) | Raised(error: PyError)

  const AlreadyExists: string := "A layer with this name already exists."
  const NoBucketAccess: string := "This function has no access to this bucker or its not exists, please validate"
  const NoLambdaAccess: string := "This function has no access to Lambda resources, please validate"
  const StagingFolder: string := "/tmp/python/"

  /** The label the handler wraps an action's result under. */
  const CreateLabel: string := "Layer ARN: "
  const ReadLabel: string := "Current Layer"
  const UpdateLabel: string := "New Layer ARN"

  /** `for library in event["libraries"]`: the libraries, or the error
      reading or iterating them raises. */
  function LibrariesOf(event: Event): Result<seq<Value>> {
    match Lookup(event, "libraries")
    case Err(e) => Err(e)
    case Ok(v) => Iterate(v)
  }

  /** A missing `libraries` key raises KeyError; a value that cannot be
      iterated raises TypeError; otherwise every item is read. */
  lemma LibrariesOfCases(event: Event)
    ensures var r := LibrariesOf(event); var v := Lookup(event, "libraries");
      && (v.Err? ==> r == Err(KeyError("libraries")))
      && (v.Ok? ==> (r.Err? <==> !HasLen(v.value)))
      && (v.Ok? && r.Err? ==> r.error == TypeError)
      && (v.Ok? && r.Ok? ==> |r.value| == Len(v.value))
  {
  }

  /** Wrapping an action's result under `key`; an exception passes. */
  function Wrap(key: string, o: Outcome): (r: Outcome)
    ensures r.Raised? <==> o.Raised?
    ensures o.Raised? ==> r == o
    ensures o.Returned? ==> r.reply.Wrapped? && r.reply.key == key && r.reply.inner == o.reply
    ensures Inner(r) == o
  {
    match o
    case Returned(x) => Returned(Wrapped(key, x))
    case Raised(e) => Raised(e)
  }

  /** The action's own result inside a wrapped one. */
  function Inner(o: Outcome): Outcome {
    if o.Returned? && o.reply.Wrapped? then Returned(o.reply.inner) else o
  }

  lemma OrderedAppend(t: seq<Effect>, u: seq<Effect>)
    requires Ordered(t) && Ordered(u)
    requires t != [] && u != [] ==> Rank(t[|t| - 1]) <= Rank(u[0])
    ensures Ordered(t + u)
  {
    forall i, j | 0 <= i < j < |t + u|
      ensures Rank((t + u)[i]) <= Rank((t + u)[j])
    {
      if i < |t| && |t| <= j {
        assert Rank(t[i]) <= Rank(t[|t| - 1]);
        assert Rank(u[0]) <= Rank(u[j - |t|]);
      }
    }
  }

  lemma {:induction false} InstallsOfAppend(t: seq<Effect>, u: seq<Effect>)
    ensures InstallsOf(t + u) == InstallsOf(t) + InstallsOf(u)
  {
    if t == [] {
      assert t + u == u;
    } else {
      assert (t + u)[0] == t[0];
      assert (t + u)[1..] == t[1..] + u;
      InstallsOfAppend(t[1..], u);
    }
  }

  /** A trace without installs installs nothing. */
  lemma {:induction false} InstallsOfNone(t: seq<Effect>)
    requires !Occurs(t, InstallRank)
    ensures InstallsOf(t) == []
  {
    if t != [] {
      assert t[0] in t;
      assert !t[0].Install?;
      assert forall e :: e in t[1..] ==> e in t;
      InstallsOfNone(t[1..]);
    }
  }

  /** Every library is a string, so pip can be run on it. */
  predicate AllStrings(libraries: seq<Value>) {
    forall i :: 0 <= i < |libraries| ==> libraries[i].Str?
  }

  /** The libraries before the first one that is not a string: the ones
      the install loop gets through before `run` raises a TypeError. */
  function StringPrefix(libraries: seq<Value>): (r: seq<Value>)
    ensures r <= libraries && AllStrings(r)
    ensures |r| < |libraries| ==> !libraries[|r|].Str?
    ensures AllStrings(libraries) <==> r == libraries
  {
    if libraries == [] || !libraries[0].Str? then []
    else
      var rest := StringPrefix(libraries[1..]);
      assert AllStrings(libraries) ==> AllStrings(libraries[1..]);
      [libraries[0]] + rest
  }

  /** A run of strings ended by a non-string (or by the end) is the string
      prefix. */
  lemma StringPrefixAt(libraries: seq<Value>, k: nat)
    requires k <= |libraries| && forall i :: 0 <= i < k ==> libraries[i].Str?
    requires k == |libraries| || !libraries[k].Str?
    ensures StringPrefix(libraries) == libraries[..k]
  {
    assert |StringPrefix(libraries)| < |libraries| ==> !libraries[|StringPrefix(libraries)|].Str?;
  }

  /** One pip install per library, in order. */
  function InstallSteps(libraries: seq<Value>): (t: seq<Effect>)
    ensures |t| == |libraries| && forall i :: 0 <= i < |t| ==> t[i] == Install(libraries[i])
    ensures InstallsOf(t) == libraries
  {
    if libraries == [] then []
    else
      var t := [Install(libraries[0])] + InstallSteps(libraries[1..]);
      assert t[1..] == InstallSteps(libraries[1..]);
      t
  }

  /** The install loop: one install per library, in order, until `run`
      raises a TypeError on a library that is not a string. */
  method InstallLibraries(libraries: seq<Value>) returns (effects: seq<Effect>, failed: bool)
    ensures failed <==> !AllStrings(libraries)
    ensures effects == InstallSteps(StringPrefix(libraries))
    ensures |effects| == |StringPrefix(libraries)|
    ensures forall i :: 0 <= i < |effects| ==> effects[i] == Install(libraries[i])
    ensures InstallsOf(effects) == StringPrefix(libraries)
    ensures Ordered(effects) && AllFrom(effects, InstallRank) && AllBelow(effects, MeasureRank)
  {
    effects := [];
    var k := 0;
    while k < |libraries| && libraries[k].Str?
      invariant k <= |libraries| && |effects| == k
      invariant forall i :: 0 <= i < k ==> effects[i] == Install(libraries[i])
      invariant forall i :: 0 <= i < k ==> libraries[i].Str?
      invariant InstallsOf(effects) == libraries[..k]
    {
      InstallsOfAppend(effects, [Install(libraries[k])]);
      assert [Install(libraries[k])][1..] == [];
      assert libraries[..k + 1] == libraries[..k] + [libraries[k]];
      effects := effects + [Install(libraries[k])];
      k := k + 1;
    }
    StringPrefixAt(libraries, k);
    InstallsOrdered(effects);
    failed := k < |libraries|;
  }

  /** A trace of installs only is in order and sits between the staging
      and the measurement. */
  lemma InstallsOrdered(effects: seq<Effect>)
    requires forall i :: 0 <= i < |effects| ==> effects[i].Install?
    ensures Ordered(effects) && AllFrom(effects, InstallRank) && AllBelow(effects, MeasureRank)
  {
  }

  /** Every effect of `t` is of a kind before `rank`. */
  predicate AllBelow(t: seq<Effect>, rank: nat) {
    forall e :: e in t ==> Rank(e) < rank
  }

  /** Every effect of `t` is of kind `rank` or later. */
  predicate AllFrom(t: seq<Effect>, rank: nat) {
    forall e :: e in t ==> rank <= Rank(e)
  }

  /** Every archive built holds `entries`. */
  predicate ZipsOf(t: seq<Effect>, entries: seq<string>) {
    forall e :: e in t && e.Zip? ==> e.entries == entries
  }

  /** Every version fetched is the first one listed. */
  predicate FetchesFirst(t: seq<Effect>, versions: seq<int>) {
    forall e :: e in t && e.GetVersion? ==> versions != [] && e.version == versions[0]
  }

  /** A trace whose neighbours are in order is in order. */
  lemma {:induction false} OrderedByNeighbours(t: seq<Effect>)
    requires forall i :: 0 < i < |t| ==> Rank(t[i - 1]) <= Rank(t[i])
    ensures Ordered(t)
  {
    if |t| > 1 {
      var front := t[..|t| - 1];
      assert forall i :: 0 <= i < |front| ==> front[i] == t[i];
      OrderedByNeighbours(front);
      forall i, j | 0 <= i < j < |t|
        ensures Rank(t[i]) <= Rank(t[j])
      {
        if j < |t| - 1 {
          assert front[i] == t[i] && front[j] == t[j];
        } else if i < |t| - 1 {
          assert front[i] == t[i] && front[|t| - 2] == t[|t| - 2];
        }
      }
    }
  }

  /** A trace of early kinds followed by one of later kinds. */
  lemma Concat(pre: seq<Effect>, t: seq<Effect>, floor: nat)
    requires Ordered(pre) && Ordered(t)
    requires AllBelow(pre, floor) && AllFrom(t, floor)
    ensures Ordered(pre + t)
    ensures InstallsOf(pre + t) == InstallsOf(pre) + InstallsOf(t)
  {
    if pre != [] && t != [] {
      assert pre[|pre| - 1] in pre && t[0] in t;
    }
    OrderedAppend(pre, t);
    InstallsOfAppend(pre, t);
  }

  /** The size check lets the request go on. */
  predicate Fits(verdict: Result<SizeGuard.Verdict>) {
    verdict.Ok? && verdict.value.Fits?
  }

  /** What a failed size check gives: the exception the parse raised, or
      the over-limit message. */
  function Refusal(verdict: Result<SizeGuard.Verdict>): (r: Outcome)
    ensures r.Raised? <==> verdict.Err?
    ensures r.Raised? ==> r.error == verdict.error
    ensures r.Returned? ==> r.reply == Message(SizeGuard.OverLimitMessage)
  {
    match verdict
    case Err(e) => Raised(e)
    case Ok(_) => Returned(Message(SizeGuard.OverLimitMessage))
  }

  /** What publishing gives once the upload succeeded: the new ARN, or the
      UnboundLocalError of reading `new_layer` after the publish call (or
      reading its arguments) raised and the exception was swallowed. */
  function PublishOutcome(layer: Result<Value>, bucket: Result<Value>, w: World): (r: Outcome)
    ensures r.Returned? <==> layer.Ok? && bucket.Ok? && w.publishedArn.Some?
    ensures r.Returned? ==> r.reply == LayerArn(w.publishedArn.value)
    ensures r.Raised? ==> r.error == UnboundLocalError
  {
    if layer.Ok? && bucket.Ok? && w.publishedArn.Some? then Returned(LayerArn(w.publishedArn.value))
    else Raised(UnboundLocalError)
  }

  /** What the size check, zip, upload and publish steps promise of a
      trace, given the size verdict: zip and upload happen exactly when the
      size was measured and fits; a refused size ends the request with its
      refusal; the archive holds the walked files; a failed upload ends the
      request with its error; publishing happens exactly after a
      successful upload whose arguments could be read, and is the last
      step. */
  ghost predicate Packaging(t: seq<Effect>, out: Outcome, verdict: Result<SizeGuard.Verdict>,
                            layer: Result<Value>, bucket: Result<Value>, w: World) {
    && (Occurs(t, ZipRank) <==> Occurs(t, MeasureRank) && Fits(verdict))
    && (Occurs(t, UploadRank) <==> Occurs(t, ZipRank))
    && (Occurs(t, MeasureRank) && !Fits(verdict) ==> out == Refusal(verdict))
    && ZipsOf(t, Archive.Entries(StagingFolder, w.walk))
    && (Occurs(t, UploadRank) && w.uploadError.Some? ==> out == Returned(UploadFailed(w.uploadError.value)))
    && (Occurs(t, PublishRank) <==> Occurs(t, UploadRank) && w.uploadError.None? && layer.Ok? && bucket.Ok?)
    && (Occurs(t, PublishRank) ==> t[|t| - 1] == Publish(layer.value, bucket.value))
    && (Occurs(t, UploadRank) && w.uploadError.None? ==> out == PublishOutcome(layer, bucket, w))
  }

  /** Packaging facts are kept when earlier steps are put in front. */
  lemma PackagingPrefix(pre: seq<Effect>, t: seq<Effect>, out: Outcome, verdict: Result<SizeGuard.Verdict>,
                        layer: Result<Value>, bucket: Result<Value>, w: World)
    requires AllBelow(pre, MeasureRank) && AllFrom(t, MeasureRank)
    requires Packaging(t, out, verdict, layer, bucket, w)
    ensures Packaging(pre + t, out, verdict, layer, bucket, w)
  {
    assert ZipsOf(pre, Archive.Entries(StagingFolder, w.walk));
    if Occurs(t, PublishRank) {
      assert (pre + t)[|pre + t| - 1] == t[|t| - 1];
    }
  }

  /** The trace of a refused size: only the measurement. */
  lemma RefusedTrace(out: Outcome, verdict: Result<SizeGuard.Verdict>, layer: Result<Value>, bucket: Result<Value>, w: World)
    requires !Fits(verdict) && out == Refusal(verdict)
    ensures Ordered([MeasureSize]) && AllFrom([MeasureSize], MeasureRank)
    ensures Packaging([MeasureSize], out, verdict, layer, bucket, w)
  {
  }

  /** The trace of a failed upload: measure, zip, upload. */
  lemma UploadFailedTrace(out: Outcome, verdict: Result<SizeGuard.Verdict>, layer: Result<Value>, bucket: Result<Value>, w: World)
    requires Fits(verdict) && w.uploadError.Some?
    requires out == Returned(UploadFailed(w.uploadError.value))
    ensures var t := [MeasureSize, Zip(Archive.Entries(StagingFolder, w.walk)), Upload];
      Ordered(t) && AllFrom(t, MeasureRank) && Packaging(t, out, verdict, layer, bucket, w)
  {
    var t := [MeasureSize, Zip(Archive.Entries(StagingFolder, w.walk)), Upload];
    assert Rank(t[0]) == MeasureRank && Rank(t[1]) == ZipRank && Rank(t[2]) == UploadRank;
  }

  /** The trace when the publish arguments cannot be read: measure, zip,
      upload, and no publish call. */
  lemma UnreadableTrace(out: Outcome, verdict: Result<SizeGuard.Verdict>, layer: Result<Value>, bucket: Result<Value>, w: World)
    requires Fits(verdict) && w.uploadError.None? && !(layer.Ok? && bucket.Ok?)
    requires out == Raised(UnboundLocalError)
    ensures var t := [MeasureSize, Zip(Archive.Entries(StagingFolder, w.walk)), Upload];
      Ordered(t) && AllFrom(t, MeasureRank) && Packaging(t, out, verdict, layer, bucket, w)
  {
    var t := [MeasureSize, Zip(Archive.Entries(StagingFolder, w.walk)), Upload];
    assert Rank(t[0]) == MeasureRank && Rank(t[1]) == ZipRank && Rank(t[2]) == UploadRank;
  }

  /** The trace of a publish: measure, zip, upload, publish. */
  lemma PublishedTrace(out: Outcome, verdict: Result<SizeGuard.Verdict>, layer: Result<Value>, bucket: Result<Value>, w: World)
    requires Fits(verdict) && w.uploadError.None? && layer.Ok? && bucket.Ok?
    requires out == PublishOutcome(layer, bucket, w)
    ensures var t := [MeasureSize, Zip(Archive.Entries(StagingFolder, w.walk)), Upload, Publish(layer.value, bucket.value)];
      Ordered(t) && AllFrom(t, MeasureRank) && Packaging(t, out, verdict, layer, bucket, w)
  {
    var t := [MeasureSize, Zip(Archive.Entries(StagingFolder, w.walk)), Upload, Publish(layer.value, bucket.value)];
    assert Rank(t[0]) == MeasureRank && Rank(t[1]) == ZipRank && Rank(t[2]) == UploadRank && Rank(t[3]) == PublishRank;
  }

  /** The steps after the installs: the measurement; when the size fits,
      the zip and the upload; when the upload succeeded and the publish
      arguments can be read, the publish call. Each happens once. */
  function PackSteps(verdict: Result<SizeGuard.Verdict>, layer: Result<Value>, bucket: Result<Value>, w: World): (t: seq<Effect>)
    ensures t != [] && t[0] == MeasureSize
    ensures Fits(verdict) <==> |t| > 1
  {
    if !Fits(verdict) then [MeasureSize]
    else if w.uploadError.Some? || layer.Err? || bucket.Err? then
      [MeasureSize, Zip(Archive.Entries(StagingFolder, w.walk)), Upload]
    else [MeasureSize, Zip(Archive.Entries(StagingFolder, w.walk)), Upload, Publish(layer.value, bucket.value)]
  }

  /** How the steps after the installs end: the size refusal, the upload
      error, or what publishing gives. */
  function PackOutcome(verdict: Result<SizeGuard.Verdict>, layer: Result<Value>, bucket: Result<Value>, w: World): Outcome {
    if !Fits(verdict) then Refusal(verdict)
    else if w.uploadError.Some? then Returned(UploadFailed(w.uploadError.value))
    else PublishOutcome(layer, bucket, w)
  }

  /** The packaging steps, each taken once, keep every packaging fact. */
  lemma PackStepsPackaging(verdict: Result<SizeGuard.Verdict>, layer: Result<Value>, bucket: Result<Value>, w: World)
    ensures var t := PackSteps(verdict, layer, bucket, w);
      Ordered(t) && AllFrom(t, MeasureRank) && Packaging(t, PackOutcome(verdict, layer, bucket, w), verdict, layer, bucket, w)
  {
    var out := PackOutcome(verdict, layer, bucket, w);
    if !Fits(verdict) {
      RefusedTrace(out, verdict, layer, bucket, w);
    } else if w.uploadError.Some? {
      UploadFailedTrace(out, verdict, layer, bucket, w);
    } else if layer.Err? || bucket.Err? {
      UnreadableTrace(out, verdict, layer, bucket, w);
    } else {
      PublishedTrace(out, verdict, layer, bucket, w);
    }
  }

  /** Each packaging step happens at most once: their kinds strictly
      increase along the trace. */
  lemma PackStepsOnce(verdict: Result<SizeGuard.Verdict>, layer: Result<Value>, bucket: Result<Value>, w: World)
    ensures var t := PackSteps(verdict, layer, bucket, w);
      forall i, j :: 0 <= i < j < |t| ==> Rank(t[i]) < Rank(t[j])
  {
    var t := PackSteps(verdict, layer, bucket, w);
    assert forall i :: 0 <= i < |t| ==> Rank(t[i]) == [MeasureRank, ZipRank, UploadRank, PublishRank][i];
  }

  /** The steps after the installs, shared by the create and update paths:
      measure, check the size, zip, upload, publish. */
  method PackAndPublish(path: SizeGuard.Path, layer: Result<Value>, bucket: Result<Value>, w: World)
    returns (t: seq<Effect>, out: Outcome)
    ensures t == PackSteps(SizeGuard.CheckSize(w.duOutput, path), layer, bucket, w)
    ensures out == PackOutcome(SizeGuard.CheckSize(w.duOutput, path), layer, bucket, w)
    ensures t != [] && t[0] == MeasureSize
    ensures Ordered(t) && AllFrom(t, MeasureRank)
    ensures !Fits(SizeGuard.CheckSize(w.duOutput, path)) ==> t == [MeasureSize]
    ensures Packaging(t, out, SizeGuard.CheckSize(w.duOutput, path), layer, bucket, w)
  {
    var verdict := SizeGuard.CheckSize(w.duOutput, path);
    if !Fits(verdict) {
      out := Refusal(verdict);
      RefusedTrace(out, verdict, layer, bucket, w);
      return [MeasureSize], out;
    }
    var entries := Archive.ZipEntries(StagingFolder, w.walk);
    if w.uploadError.Some? {
      out := Returned(UploadFailed(w.uploadError.value));
      UploadFailedTrace(out, verdict, layer, bucket, w);
      return [MeasureSize, Zip(entries), Upload], out;
    }
    if layer.Err? || bucket.Err? {
      out := Raised(UnboundLocalError);
      UnreadableTrace(out, verdict, layer, bucket, w);
      return [MeasureSize, Zip(entries), Upload], out;
    }
    out := PublishOutcome(layer, bucket, w);
    PublishedTrace(out, verdict, layer, bucket, w);
    t := [MeasureSize, Zip(entries), Upload, Publish(layer.value, bucket.value)];
  }

  /** A trace that stops before the size check promises every packaging
      fact: none of those steps happened. */
  lemma EarlyTrace(t: seq<Effect>, out: Outcome, verdict: Result<SizeGuard.Verdict>,
                   layer: Result<Value>, bucket: Result<Value>, w: World)
    requires AllBelow(t, MeasureRank)
    ensures Packaging(t, out, verdict, layer, bucket, w)
  {
  }

  lemma PrefixOf(a: seq<Effect>, b: seq<Effect>, c: seq<Effect>)
    ensures a <= a + b + c
  {
    assert (a + b + c)[..|a|] == a;
  }

  /** Staging, installs and the packaging steps, in that order. */
  lemma Assemble(staging: seq<Effect>, installs: seq<Effect>, t: seq<Effect>, out: Outcome,
                 verdict: Result<SizeGuard.Verdict>, layer: Result<Value>, bucket: Result<Value>, w: World)
    requires Ordered(staging) && AllBelow(staging, InstallRank) && AllFrom(staging, ListRank)
    requires Ordered(installs) && AllFrom(installs, InstallRank) && AllBelow(installs, MeasureRank)
    requires Ordered(t) && AllFrom(t, MeasureRank) && t != [] && t[0] == MeasureSize
    requires Packaging(t, out, verdict, layer, bucket, w)
    ensures staging <= staging + installs + t
    ensures Ordered(staging + installs + t) && AllFrom(staging + installs + t, ListRank)
    ensures InstallsOf(staging + installs + t) == InstallsOf(installs)
    ensures Occurs(staging + installs + t, MeasureRank)
    ensures !Occurs(staging, FetchRank) ==> !Occurs(staging + installs + t, FetchRank)
    ensures FetchesFirst(staging, w.versions) ==> FetchesFirst(staging + installs + t, w.versions)
    ensures Packaging(staging + installs + t, out, verdict, layer, bucket, w)
  {
    AssembleOrder(staging, installs, t, w.versions);
    PackagingPrefix(staging + installs, t, out, verdict, layer, bucket, w);
  }

  lemma AssembleOrder(staging: seq<Effect>, installs: seq<Effect>, t: seq<Effect>, versions: seq<int>)
    requires Ordered(staging) && AllBelow(staging, InstallRank) && AllFrom(staging, ListRank)
    requires Ordered(installs) && AllFrom(installs, InstallRank) && AllBelow(installs, MeasureRank)
    requires Ordered(t) && AllFrom(t, MeasureRank) && t != [] && t[0] == MeasureSize
    ensures staging <= staging + installs + t
    ensures Ordered(staging + installs + t) && AllFrom(staging + installs + t, ListRank)
    ensures AllBelow(staging + installs, MeasureRank)
    ensures InstallsOf(staging + installs + t) == InstallsOf(installs)
    ensures Occurs(staging + installs + t, MeasureRank)
    ensures !Occurs(staging, FetchRank) ==> !Occurs(staging + installs + t, FetchRank)
    ensures FetchesFirst(staging, versions) ==> FetchesFirst(staging + installs + t, versions)
  {
    Concat(staging, installs, InstallRank);
    Concat(staging + installs, t, MeasureRank);
    InstallsOfNone(staging);
    InstallsOfNone(t);
    assert t[0] in staging + installs + t;
    PrefixOf(staging, installs, t);
  }

  /** Staging followed by installs that stopped on a library that is not
      a string: in order, and nothing measured. */
  lemma AssembleStopped(staging: seq<Effect>, installs: seq<Effect>, versions: seq<int>)
    requires Ordered(staging) && AllBelow(staging, InstallRank) && AllFrom(staging, ListRank)
    requires Ordered(installs) && AllFrom(installs, InstallRank) && AllBelow(installs, MeasureRank)
    ensures staging <= staging + installs
    ensures Ordered(staging + installs) && AllFrom(staging + installs, ListRank)
    ensures AllBelow(staging + installs, MeasureRank) && !Occurs(staging + installs, MeasureRank)
    ensures InstallsOf(staging + installs) == InstallsOf(installs)
    ensures !Occurs(staging, FetchRank) ==> !Occurs(staging + installs, FetchRank)
    ensures FetchesFirst(staging, versions) ==> FetchesFirst(staging + installs, versions)
  {
    Concat(staging, installs, InstallRank);
    InstallsOfNone(staging);
    PrefixOf(staging, installs, []);
    assert staging + installs + [] == staging + installs;
  }

  /** The layer is found listed, so the create path stops. */
  predicate Listed(layer: Result<Value>, w: World) {
    layer.Ok? && w.versions != []
  }

  /** The create path's steps before the installs: the existence check
      when the event names a layer, then clearing and making the staging
      folder. */
  function CreateStaging(layer: Result<Value>): (s: seq<Effect>)
    ensures |s| >= 2 && s[|s| - 2] == ClearScratch && s[|s| - 1] == MakeStaging
    ensures layer.Ok? <==> s[0].ListVersions?
    ensures layer.Ok? ==> s[0].layer == layer.value
  {
    if layer.Ok? then [ListVersions(layer.value), ClearScratch, MakeStaging] else [ClearScratch, MakeStaging]
  }

  lemma CreateStagingFacts(layer: Result<Value>)
    ensures var s := CreateStaging(layer);
      Ordered(s) && AllBelow(s, InstallRank) && AllFrom(s, ListRank) && !Occurs(s, FetchRank)
    ensures layer.Ok? ==> var s := [ListVersions(layer.value)];
      Ordered(s) && AllBelow(s, MeasureRank) && AllFrom(s, ListRank) && !Occurs(s, FetchRank)
  {
  }

  /** The update path's steps before the installs: list the versions,
      fetch the first, download and unpack it. */
  function UpdateStaging(layer: Value, version: int): (s: seq<Effect>)
    ensures s != [] && s[0] == ListVersions(layer) && s[|s| - 1] == Unpack
    ensures forall e :: e in s && e.GetVersion? ==> e == GetVersion(layer, version)
    ensures Occurs(s, FetchRank) && !Occurs(s, InstallRank)
  {
    var s := [ListVersions(layer), GetVersion(layer, version), Download, Unpack];
    assert s[1] in s;
    s
  }

  lemma UpdateStagingFacts(layer: Value, versions: seq<int>)
    requires versions != []
    ensures var s := UpdateStaging(layer, versions[0]);
      Ordered(s) && AllBelow(s, InstallRank) && AllFrom(s, ListRank) && FetchesFirst(s, versions)
  {
    var s := UpdateStaging(layer, versions[0]);
    OrderedByNeighbours(s);
  }

  /** The steps after staging: the installs up to the first library that
      is not a string, then, when every library was installed, the
      packaging steps. Reading the libraries can fail before any step. */
  function BuildSteps(libraries: Result<seq<Value>>, verdict: Result<SizeGuard.Verdict>,
                      layer: Result<Value>, bucket: Result<Value>, w: World): (t: seq<Effect>)
    ensures libraries.Ok? ==> InstallsOf(t) == StringPrefix(libraries.value)
    ensures Occurs(t, MeasureRank) <==> libraries.Ok? && AllStrings(libraries.value)
  {
    match libraries
    case Err(_) => []
    case Ok(libs) =>
      var installs := InstallSteps(StringPrefix(libs));
      var rest := if AllStrings(libs) then PackSteps(verdict, layer, bucket, w) else [];
      PackStepsPackaging(verdict, layer, bucket, w);
      assert rest != [] ==> rest[0] in rest;
      InstallsOrdered(installs);
      InstallsThen(installs, rest);
      installs + rest
  }

  /** Installs followed by later steps: the installs recorded are the
      first part's, and a measurement occurs exactly when the later part
      has one. */
  lemma InstallsThen(installs: seq<Effect>, rest: seq<Effect>)
    requires AllFrom(installs, InstallRank) && AllBelow(installs, MeasureRank) && AllFrom(rest, MeasureRank)
    ensures InstallsOf(installs + rest) == InstallsOf(installs)
    ensures Occurs(installs + rest, MeasureRank) <==> Occurs(rest, MeasureRank)
  {
    InstallsOfAppend(installs, rest);
    InstallsOfNone(rest);
  }

  /** How the steps after staging end: the error reading the libraries,
      the TypeError of installing one that is not a string, or how the
      packaging steps end. */
  function BuildOutcome(libraries: Result<seq<Value>>, verdict: Result<SizeGuard.Verdict>,
                        layer: Result<Value>, bucket: Result<Value>, w: World): Outcome {
    match libraries
    case Err(e) => Raised(e)
    case Ok(libs) => if AllStrings(libs) then PackOutcome(verdict, layer, bucket, w) else Raised(TypeError)
  }

  /** The steps after staging, shared by the create and update paths:
      install every library of the event, then measure, check the size,
      zip, upload and publish. */
  method Build(staging: seq<Effect>, event: Event, path: SizeGuard.Path, layer: Result<Value>, w: World)
    returns (trace: seq<Effect>, out: Outcome)
    requires Ordered(staging) && AllBelow(staging, InstallRank) && AllFrom(staging, ListRank)
    ensures trace == staging + BuildSteps(LibrariesOf(event), SizeGuard.CheckSize(w.duOutput, path),
                                          layer, Lookup(event, "s3_bucket"), w)
    ensures out == BuildOutcome(LibrariesOf(event), SizeGuard.CheckSize(w.duOutput, path),
                                layer, Lookup(event, "s3_bucket"), w)
    ensures staging <= trace
    ensures Ordered(trace) && AllFrom(trace, ListRank)
    ensures !Occurs(staging, FetchRank) ==> !Occurs(trace, FetchRank)
    ensures FetchesFirst(staging, w.versions) ==> FetchesFirst(trace, w.versions)
    ensures Occurs(trace, MeasureRank) <==> LibrariesOf(event).Ok? && AllStrings(LibrariesOf(event).value)
    ensures LibrariesOf(event).Err? ==> out == Raised(LibrariesOf(event).error)
    ensures LibrariesOf(event).Ok? && !AllStrings(LibrariesOf(event).value) ==> out == Raised(TypeError)
    ensures LibrariesOf(event).Ok? ==> InstallsOf(trace) == StringPrefix(LibrariesOf(event).value)
    ensures Occurs(trace, MeasureRank) ==>
      LibrariesOf(event).Ok? && InstallsOf(trace) == LibrariesOf(event).value
    ensures Packaging(trace, out, SizeGuard.CheckSize(w.duOutput, path), layer, Lookup(event, "s3_bucket"), w)
  {
    var bucket := Lookup(event, "s3_bucket");
    var verdict := SizeGuard.CheckSize(w.duOutput, path);
    var libraries := LibrariesOf(event);
    BuildStepsFacts(staging, libraries, verdict, layer, bucket, w);
    if libraries.Err? {
      assert staging + [] == staging;
      return staging, Raised(libraries.error);
    }
    var installs, failed := InstallLibraries(libraries.value);
    if failed {
      assert installs + [] == installs;
      return staging + installs, Raised(TypeError);
    }
    var t;
    t, out := PackAndPublish(path, layer, bucket, w);
    trace := staging + (installs + t);
  }

  /** What the steps after staging promise of the whole trace: it stays
      in order, the installs are the string prefix of the libraries, the
      size is measured exactly when every library was installed, reading
      or installing the libraries ends the request with its error, and
      the packaging facts hold. */
  ghost predicate BuildFacts(staging: seq<Effect>, libraries: Result<seq<Value>>, verdict: Result<SizeGuard.Verdict>,
                             layer: Result<Value>, bucket: Result<Value>, w: World, t: seq<Effect>, out: Outcome) {
    && staging <= t && Ordered(t) && AllFrom(t, ListRank)
    && (!Occurs(staging, FetchRank) ==> !Occurs(t, FetchRank))
    && (FetchesFirst(staging, w.versions) ==> FetchesFirst(t, w.versions))
    && (Occurs(t, MeasureRank) <==> libraries.Ok? && AllStrings(libraries.value))
    && (libraries.Ok? ==> InstallsOf(t) == StringPrefix(libraries.value))
    && (Occurs(t, MeasureRank) ==> libraries.Ok? && InstallsOf(t) == libraries.value)
    && (libraries.Err? ==> out == Raised(libraries.error))
    && (libraries.Ok? && !AllStrings(libraries.value) ==> out == Raised(TypeError))
    && Packaging(t, out, verdict, layer, bucket, w)
  }

  /** Staging followed by the steps after it keeps the facts above. */
  lemma BuildStepsFacts(staging: seq<Effect>, libraries: Result<seq<Value>>, verdict: Result<SizeGuard.Verdict>,
                        layer: Result<Value>, bucket: Result<Value>, w: World)
    requires Ordered(staging) && AllBelow(staging, InstallRank) && AllFrom(staging, ListRank)
    ensures BuildFacts(staging, libraries, verdict, layer, bucket, w,
                       staging + BuildSteps(libraries, verdict, layer, bucket, w),
                       BuildOutcome(libraries, verdict, layer, bucket, w))
  {
    match libraries
    case Err(_) =>
      assert BuildSteps(libraries, verdict, layer, bucket, w) == [];
      BuildUnread(staging, libraries, verdict, layer, bucket, w);
    case Ok(libs) =>
      var installs := InstallSteps(StringPrefix(libs));
      if AllStrings(libs) {
        assert BuildSteps(libraries, verdict, layer, bucket, w) == installs + PackSteps(verdict, layer, bucket, w);
        PackStepsPackaging(verdict, layer, bucket, w);
        BuildPacked(staging, libs, installs, PackSteps(verdict, layer, bucket, w), PackOutcome(verdict, layer, bucket, w),
                    verdict, layer, bucket, w);
      } else {
        assert BuildSteps(libraries, verdict, layer, bucket, w) == installs + [];
        BuildStopped(staging, libs, verdict, layer, bucket, w);
      }
  }

  /** The libraries cannot be read: nothing follows the staging. */
  lemma BuildUnread(staging: seq<Effect>, libraries: Result<seq<Value>>, verdict: Result<SizeGuard.Verdict>,
                    layer: Result<Value>, bucket: Result<Value>, w: World)
    requires Ordered(staging) && AllBelow(staging, InstallRank) && AllFrom(staging, ListRank)
    requires libraries.Err?
    ensures BuildFacts(staging, libraries, verdict, layer, bucket, w, staging + [], Raised(libraries.error))
  {
    assert staging + [] == staging;
    EarlyTrace(staging, Raised(libraries.error), verdict, layer, bucket, w);
    InstallsOfNone(staging);
  }

  /** An install raised TypeError: only the installs before it follow the
      staging. */
  lemma BuildStopped(staging: seq<Effect>, libs: seq<Value>, verdict: Result<SizeGuard.Verdict>,
                     layer: Result<Value>, bucket: Result<Value>, w: World)
    requires Ordered(staging) && AllBelow(staging, InstallRank) && AllFrom(staging, ListRank)
    requires !AllStrings(libs)
    ensures BuildFacts(staging, Ok(libs), verdict, layer, bucket, w,
                       staging + (InstallSteps(StringPrefix(libs)) + []), Raised(TypeError))
  {
    var installs := InstallSteps(StringPrefix(libs));
    assert installs + [] == installs;
    InstallsOrdered(installs);
    AssembleStopped(staging, installs, w.versions);
    EarlyTrace(staging + installs, Raised(TypeError), verdict, layer, bucket, w);
  }

  /** Every library was installed: the packaging steps follow. */
  lemma BuildPacked(staging: seq<Effect>, libs: seq<Value>, installs: seq<Effect>, t: seq<Effect>, out: Outcome,
                    verdict: Result<SizeGuard.Verdict>, layer: Result<Value>, bucket: Result<Value>, w: World)
    requires Ordered(staging) && AllBelow(staging, InstallRank) && AllFrom(staging, ListRank)
    requires AllStrings(libs) && installs == InstallSteps(StringPrefix(libs))
    requires Ordered(t) && AllFrom(t, MeasureRank) && t != [] && t[0] == MeasureSize
    requires Packaging(t, out, verdict, layer, bucket, w)
    ensures BuildFacts(staging, Ok(libs), verdict, layer, bucket, w, staging + (installs + t), out)
  {
    InstallsOrdered(installs);
    Assemble(staging, installs, t, out, verdict, layer, bucket, w);
    AppendAssoc(staging, installs, t);
  }

  lemma AppendAssoc(a: seq<Effect>, b: seq<Effect>, c: seq<Effect>)
    ensures a + b + c == a + (b + c)
  {
  }

  /** What `create_new` promises: the existence check first when the
      event names a layer; a listed layer ends the request there;
      otherwise the staging folder is cleared and made, the libraries are
      installed up to the first one that is not a string (which raises
      TypeError with nothing measured), and the packaging facts hold; no
      version is ever fetched. The trace and the outcome are given
      exactly, so each step happens as often as the code runs it. */
  ghost predicate CreateNewRuns(event: Event, w: World, trace: seq<Effect>, out: Outcome) {
    var layer := Lookup(event, "layer_name");
    var libraries := LibrariesOf(event);
    var verdict := SizeGuard.CheckSize(w.duOutput, SizeGuard.CreatePath);
    var bucket := Lookup(event, "s3_bucket");
    && trace == (if Listed(layer, w) then [ListVersions(layer.value)]
                 else CreateStaging(layer) + BuildSteps(libraries, verdict, layer, bucket, w))
    && out == (if Listed(layer, w) then Returned(Message(AlreadyExists))
               else BuildOutcome(libraries, verdict, layer, bucket, w))
    && Ordered(trace) && AllFrom(trace, ListRank) && !Occurs(trace, FetchRank)
    && (layer.Ok? ==> trace != [] && trace[0] == ListVersions(layer.value))
    && (Listed(layer, w) ==> trace == [ListVersions(layer.value)] && out == Returned(Message(AlreadyExists)))
    && (!Listed(layer, w) ==> CreateStaging(layer) <= trace)
    && (!Listed(layer, w) ==> (Occurs(trace, MeasureRank) <==> libraries.Ok? && AllStrings(libraries.value)))
    && (!Listed(layer, w) && libraries.Err? ==> out == Raised(libraries.error))
    && (!Listed(layer, w) && libraries.Ok? ==> InstallsOf(trace) == StringPrefix(libraries.value))
    && (!Listed(layer, w) && libraries.Ok? && !AllStrings(libraries.value) ==> out == Raised(TypeError))
    && (Occurs(trace, MeasureRank) ==> libraries.Ok? && InstallsOf(trace) == libraries.value)
    && Packaging(trace, out, SizeGuard.CheckSize(w.duOutput, SizeGuard.CreatePath), layer, Lookup(event, "s3_bucket"), w)
  }

  /** `create_new` (the existence check, staging, installs, then the
      packaging steps). A missing `layer_name` makes the existence check
      raise, which the code swallows, so staging goes ahead. */
  method CreateNew(event: Event, w: World) returns (trace: seq<Effect>, out: Outcome)
    ensures CreateNewRuns(event, w, trace, out)
  {
    var layer := Lookup(event, "layer_name");
    CreateStagingFacts(layer);
    if layer.Ok? && w.versions != [] {
      out := Returned(Message(AlreadyExists));
      EarlyTrace([ListVersions(layer.value)], out, SizeGuard.CheckSize(w.duOutput, SizeGuard.CreatePath),
                 layer, Lookup(event, "s3_bucket"), w);
      return [ListVersions(layer.value)], out;
    }
    var staging := CreateStaging(layer);
    trace, out := Build(staging, event, SizeGuard.CreatePath, layer, w);
    assert trace[0] == staging[0];
  }

  /** What `update` promises: a missing layer name raises KeyError with no
      step; no listed version raises IndexError after the listing;
      otherwise the first listed version is fetched, downloaded and
      unpacked, the libraries are installed up to the first one that is
      not a string (which raises TypeError with nothing measured), and the
      packaging facts hold. The trace and the outcome are given exactly. */
  ghost predicate UpdateRuns(event: Event, w: World, trace: seq<Effect>, out: Outcome) {
    UpdateRunsOn(Lookup(event, "layer_name"), LibrariesOf(event), Lookup(event, "s3_bucket"),
                 SizeGuard.CheckSize(w.duOutput, SizeGuard.UpdatePath), w, trace, out)
  }

  /** `UpdateRuns` over what the event's lookups and the size check give. */
  ghost predicate UpdateRunsOn(layer: Result<Value>, libraries: Result<seq<Value>>, bucket: Result<Value>,
                               verdict: Result<SizeGuard.Verdict>, w: World, trace: seq<Effect>, out: Outcome) {
    && trace == (if layer.Err? then []
                 else if w.versions == [] then [ListVersions(layer.value)]
                 else UpdateStaging(layer.value, w.versions[0]) + BuildSteps(libraries, verdict, layer, bucket, w))
    && out == (if layer.Err? then Raised(KeyError("layer_name"))
               else if w.versions == [] then Raised(IndexError)
               else BuildOutcome(libraries, verdict, layer, bucket, w))
    && Ordered(trace) && AllFrom(trace, ListRank) && FetchesFirst(trace, w.versions)
    && (layer.Err? ==> trace == [] && out == Raised(KeyError("layer_name")))
    && (layer.Ok? ==> trace != [] && trace[0] == ListVersions(layer.value))
    && (layer.Ok? && w.versions == [] ==> trace == [ListVersions(layer.value)] && out == Raised(IndexError))
    && (Listed(layer, w) ==> UpdateStaging(layer.value, w.versions[0]) <= trace)
    && (Listed(layer, w) ==> (Occurs(trace, MeasureRank) <==> libraries.Ok? && AllStrings(libraries.value)))
    && (Listed(layer, w) && libraries.Err? ==> out == Raised(libraries.error))
    && (Listed(layer, w) && libraries.Ok? ==> InstallsOf(trace) == StringPrefix(libraries.value))
    && (Listed(layer, w) && libraries.Ok? && !AllStrings(libraries.value) ==> out == Raised(TypeError))
    && (Occurs(trace, MeasureRank) ==> libraries.Ok? && InstallsOf(trace) == libraries.value)
    && Packaging(trace, out, verdict, layer, bucket, w)
  }

  /** `update` (fetch the first listed version, unpack it, installs, then
      the packaging steps). */
  method Update(event: Event, w: World) returns (trace: seq<Effect>, out: Outcome)
    ensures UpdateRuns(event, w, trace, out)
  {
    var layer := Lookup(event, "layer_name");
    var verdict := SizeGuard.CheckSize(w.duOutput, SizeGuard.UpdatePath);
    if layer.Err? {
      UpdateUnnamed(layer, LibrariesOf(event), Lookup(event, "s3_bucket"), verdict, w);
      return [], Raised(KeyError("layer_name"));
    }
    if w.versions == [] {
      UpdateUnlisted(layer, LibrariesOf(event), Lookup(event, "s3_bucket"), verdict, w);
      return [ListVersions(layer.value)], Raised(IndexError);
    }
    UpdateStagingFacts(layer.value, w.versions);
    var staging := UpdateStaging(layer.value, w.versions[0]);
    trace, out := Build(staging, event, SizeGuard.UpdatePath, layer, w);
    assert trace[0] == staging[0];
  }

  /** `update` without a layer name: KeyError before any step. */
  lemma UpdateUnnamed(layer: Result<Value>, libraries: Result<seq<Value>>, bucket: Result<Value>,
                      verdict: Result<SizeGuard.Verdict>, w: World)
    requires layer.Err?
    ensures UpdateRunsOn(layer, libraries, bucket, verdict, w, [], Raised(KeyError("layer_name")))
  {
    EarlyTrace([], Raised(KeyError("layer_name")), verdict, layer, bucket, w);
  }

  /** `update` of a layer with no listed version: IndexError after the listing. */
  lemma UpdateUnlisted(layer: Result<Value>, libraries: Result<seq<Value>>, bucket: Result<Value>,
                       verdict: Result<SizeGuard.Verdict>, w: World)
    requires layer.Ok? && w.versions == []
    ensures UpdateRunsOn(layer, libraries, bucket, verdict, w, [ListVersions(layer.value)], Raised(IndexError))
  {
    CreateStagingFacts(layer);
    EarlyTrace([ListVersions(layer.value)], Raised(IndexError), verdict, layer, bucket, w);
  }

  /** What the read-only action returns for the listing parse. */
  function ListingOutcome(r: Result<PackageListing.Listing>): Outcome {
    match r
    case Ok(listing) => Returned(Packages(listing))
    case Err(e) => Raised(e)
  }

  /** The read-only action's steps: list the versions, fetch the first,
      download and unpack it, list its packages. */
  function ReadSteps(layer: Value, version: int): (s: seq<Effect>)
    ensures s == UpdateStaging(layer, version) + [ListPackages]
  {
    [ListVersions(layer), GetVersion(layer, version), Download, Unpack, ListPackages]
  }

  lemma ReadStepsFacts(layer: Value, versions: seq<int>)
    requires versions != []
    ensures var s := ReadSteps(layer, versions[0]);
      && Ordered(s) && AllFrom(s, ListRank) && AllBelow(s, ZipRank) && FetchesFirst(s, versions)
      && !Occurs(s, InstallRank) && !Occurs(s, MeasureRank)
  {
    ReadStepsOrdered(layer, versions[0]);
  }

  lemma ReadStepsOrdered(layer: Value, version: int)
    ensures Ordered(ReadSteps(layer, version))
  {
    OrderedByNeighbours(ReadSteps(layer, version));
  }

  /** What `read_only` promises: the KeyError of a missing layer name with
      no step; the IndexError of no listed version after the listing;
      otherwise the steps of `ReadSteps` for the first listed version and
      the parsed `pip list` output (or its IndexError). Nothing is ever
      installed, measured, zipped, uploaded or published. */
  ghost predicate ReadOnlyRuns(event: Event, w: World, trace: seq<Effect>, out: Outcome) {
    var layer := Lookup(event, "layer_name");
    && Ordered(trace) && AllFrom(trace, ListRank) && FetchesFirst(trace, w.versions)
    && AllBelow(trace, ZipRank) && !Occurs(trace, InstallRank) && !Occurs(trace, MeasureRank)
    && (layer.Err? ==> trace == [] && out == Raised(KeyError("layer_name")))
    && (layer.Ok? && w.versions == [] ==> trace == [ListVersions(layer.value)] && out == Raised(IndexError))
    && (Listed(layer, w) ==>
          trace == ReadSteps(layer.value, w.versions[0]) && out == ListingOutcome(PackageListing.ListingOf(w.pipList)))
  }

  /** `read_only`: the packages of the first listed version of the layer,
      parsed from its `pip list` output. Nothing is installed, zipped,
      uploaded or published. */
  method ReadOnly(event: Event, w: World) returns (trace: seq<Effect>, out: Outcome)
    ensures ReadOnlyRuns(event, w, trace, out)
  {
    var layer := Lookup(event, "layer_name");
    if layer.Err? {
      return [], Raised(layer.error);
    }
    if w.versions == [] {
      return [ListVersions(layer.value)], Raised(IndexError);
    }
    ReadStepsFacts(layer.value, w.versions);
    trace := ReadSteps(layer.value, w.versions[0]);
    var listing := PackageListing.ReadListing(w.pipList);
    out := ListingOutcome(listing);
  }

  /** The key the handler returns an action's result under; no key for an
      action it does not know. */
  function KeyFor(action: Value): (k: Option<string>)
    ensures k.Some? <==> action in [Str("create_new"), Str("read_only"), Str("update")]
    ensures k.Some? ==> k.value in [CreateLabel, ReadLabel, UpdateLabel]
  {
    if action == Str("create_new") then Some(CreateLabel)
    else if action == Str("read_only") then Some(ReadLabel)
    else if action == Str("update") then Some(UpdateLabel)
    else None
  }

  /** Different actions are wrapped under different keys, so the key of a
      reply tells which action ran. */
  lemma KeyForDistinct(a: Value, b: Value)
    requires KeyFor(a).Some? && KeyFor(a) == KeyFor(b)
    ensures a == b
  {
  }

  /** The key for `event["action"]`, none when reading it raises. */
  function KeyOf(action: Result<Value>): Option<string> {
    if action.Ok? then KeyFor(action.value) else None
  }

  /** Which size guard an action goes through. */
  function PathFor(action: Result<Value>): SizeGuard.Path {
    if action == Ok(Str("create_new")) then SizeGuard.CreatePath else SizeGuard.UpdatePath
  }

  /** What dispatching on `action` promises of the trace and the result:
      an event without an action raises the KeyError of reading it; an
      unknown action takes no step and returns nothing; a known one
      returns its result under its key; creating a listed layer stops
      after the version listing; installs come after the version listing;
      zip and upload only after a size check that fits; a refused size or
      a failed upload ends the request (no zip or upload, resp. no
      publish); every fetched version is the first one listed. */
  ghost predicate Dispatching(t: seq<Effect>, out: Outcome, action: Result<Value>, layer: Result<Value>,
                              verdict: Result<SizeGuard.Verdict>, w: World) {
    && (action.Err? ==> AllBelow(t, ListRank) && out == Raised(action.error))
    && (action.Ok? && KeyFor(action.value).None? ==> AllBelow(t, ListRank) && out == Returned(NoReply))
    && (KeyOf(action).Some? && out.Returned? ==> out.reply.Wrapped? && out.reply.key == KeyOf(action).value)
    && (action == Ok(Str("create_new")) && Listed(layer, w) ==>
          AllBelow(t, FetchRank) && out == Returned(Wrapped(CreateLabel, Message(AlreadyExists))))
    && (layer.Ok? && Occurs(t, InstallRank) ==> Occurs(t, ListRank))
    && (Occurs(t, ZipRank) || Occurs(t, UploadRank) ==> Occurs(t, MeasureRank) && Fits(verdict))
    && (KeyOf(action).Some? && Occurs(t, MeasureRank) && !Fits(verdict) ==>
          !Occurs(t, ZipRank) && !Occurs(t, UploadRank) && out == Wrap(KeyOf(action).value, Refusal(verdict)))
    && (KeyOf(action).Some? && Occurs(t, UploadRank) && w.uploadError.Some? ==>
          !Occurs(t, PublishRank) && out == Returned(Wrapped(KeyOf(action).value, UploadFailed(w.uploadError.value))))
    && FetchesFirst(t, w.versions)
  }

  /** The dispatch facts are kept when the probes are put in front. */
  lemma DispatchingPrefix(pre: seq<Effect>, t: seq<Effect>, out: Outcome, action: Result<Value>, layer: Result<Value>,
                          verdict: Result<SizeGuard.Verdict>, w: World)
    requires Ordered(pre) && AllBelow(pre, ListRank) && Ordered(t) && AllFrom(t, ListRank)
    requires Dispatching(t, out, action, layer, verdict, w)
    ensures Ordered(pre + t)
    ensures Dispatching(pre + t, out, action, layer, verdict, w)
  {
    Concat(pre, t, ListRank);
  }

  /** The facts of `create_new` the dispatch facts rest on. */
  lemma CreateNewFacts(event: Event, w: World, t: seq<Effect>, o: Outcome)
    requires CreateNewRuns(event, w, t, o)
    ensures var layer := Lookup(event, "layer_name");
      && (layer.Ok? ==> t != [] && t[0] == ListVersions(layer.value))
      && (Listed(layer, w) ==> t == [ListVersions(layer.value)] && o == Returned(Message(AlreadyExists)))
      && !Occurs(t, FetchRank)
      && Packaging(t, o, SizeGuard.CheckSize(w.duOutput, SizeGuard.CreatePath), layer, Lookup(event, "s3_bucket"), w)
  {
  }

  /** The facts of `update` the dispatch facts rest on. */
  lemma UpdateFacts(event: Event, w: World, t: seq<Effect>, o: Outcome)
    requires UpdateRuns(event, w, t, o)
    ensures var layer := Lookup(event, "layer_name");
      && (layer.Ok? ==> t != [] && t[0] == ListVersions(layer.value))
      && FetchesFirst(t, w.versions)
      && Packaging(t, o, SizeGuard.CheckSize(w.duOutput, SizeGuard.UpdatePath), layer, Lookup(event, "s3_bucket"), w)
  {
  }

  lemma CreateDispatching(t: seq<Effect>, o: Outcome, layer: Result<Value>, bucket: Result<Value>,
                          verdict: Result<SizeGuard.Verdict>, w: World)
    requires layer.Ok? ==> t != [] && t[0] == ListVersions(layer.value)
    requires Listed(layer, w) ==> t == [ListVersions(layer.value)] && o == Returned(Message(AlreadyExists))
    requires !Occurs(t, FetchRank)
    requires Packaging(t, o, verdict, layer, bucket, w)
    ensures Dispatching(t, Wrap(CreateLabel, o), Ok(Str("create_new")), layer, verdict, w)
  {
    if layer.Ok? {
      assert t[0] in t;
    }
  }

  lemma UpdateDispatching(t: seq<Effect>, o: Outcome, layer: Result<Value>, bucket: Result<Value>,
                          verdict: Result<SizeGuard.Verdict>, w: World)
    requires layer.Ok? ==> t != [] && t[0] == ListVersions(layer.value)
    requires FetchesFirst(t, w.versions)
    requires Packaging(t, o, verdict, layer, bucket, w)
    ensures Dispatching(t, Wrap(UpdateLabel, o), Ok(Str("update")), layer, verdict, w)
  {
    if layer.Ok? {
      assert t[0] in t;
    }
  }

  lemma ReadDispatching(t: seq<Effect>, o: Outcome, layer: Result<Value>,
                        verdict: Result<SizeGuard.Verdict>, w: World)
    requires !Occurs(t, InstallRank) && !Occurs(t, MeasureRank) && AllBelow(t, ZipRank)
    requires FetchesFirst(t, w.versions)
    ensures Dispatching(t, Wrap(ReadLabel, o), Ok(Str("read_only")), layer, verdict, w)
  {
  }

  /** What the dispatch promises about the action it ran: the result of a
      known action is that action's own result wrapped under its key, and
      the trace and that result are the ones the action promises. */
  ghost predicate Performs(t: seq<Effect>, out: Outcome, event: Event, w: World) {
    var action := Lookup(event, "action");
    && (action == Ok(Str("create_new")) ==>
          out == Wrap(CreateLabel, Inner(out)) && CreateNewRuns(event, w, t, Inner(out)))
    && (action == Ok(Str("read_only")) ==>
          out == Wrap(ReadLabel, Inner(out)) && ReadOnlyRuns(event, w, t, Inner(out)))
    && (action == Ok(Str("update")) ==>
          out == Wrap(UpdateLabel, Inner(out)) && UpdateRuns(event, w, t, Inner(out)))
  }

  /** The dispatch on `event["action"]`. */
  method Dispatch(event: Event, w: World) returns (trace: seq<Effect>, out: Outcome)
    ensures Ordered(trace) && AllFrom(trace, ListRank)
    ensures Lookup(event, "action").Err? ==> trace == [] && out == Raised(KeyError("action"))
    ensures (Lookup(event, "action").Ok? && KeyFor(Lookup(event, "action").value).None?) ==>
      trace == [] && out == Returned(NoReply)
    ensures Dispatching(trace, out, Lookup(event, "action"), Lookup(event, "layer_name"),
                        SizeGuard.CheckSize(w.duOutput, PathFor(Lookup(event, "action"))), w)
    ensures Performs(trace, out, event, w)
  {
    var action := Lookup(event, "action");
    if action.Err? {
      return [], Raised(action.error);
    }
    var layer := Lookup(event, "layer_name");
    var verdict := SizeGuard.CheckSize(w.duOutput, PathFor(action));
    var o;
    if action.value == Str("create_new") {
      trace, o := CreateNew(event, w);
      out := Wrap(CreateLabel, o);
      CreateNewFacts(event, w, trace, o);
      CreateDispatching(trace, o, layer, Lookup(event, "s3_bucket"), verdict, w);
    } else if action.value == Str("read_only") {
      trace, o := ReadOnly(event, w);
      out := Wrap(ReadLabel, o);
      ReadDispatching(trace, o, layer, verdict, w);
    } else if action.value == Str("update") {
      trace, o := Update(event, w);
      out := Wrap(UpdateLabel, o);
      UpdateFacts(event, w, trace, o);
      UpdateDispatching(trace, o, layer, Lookup(event, "s3_bucket"), verdict, w);
    } else {
      trace, out := [], Returned(NoReply);
    }
  }

  /** The access probes come first and in order. */
  lemma ProbesFacts(t: seq<Effect>)
    ensures Ordered([ProbeBucket, ProbeLambda]) && AllBelow([ProbeBucket, ProbeLambda], ListRank)
    ensures [ProbeBucket, ProbeLambda] <= [ProbeBucket, ProbeLambda] + t
    ensures t == [] ==> [ProbeBucket, ProbeLambda] + t == [ProbeBucket, ProbeLambda]
    ensures ([ProbeBucket, ProbeLambda] + t)[2..] == t
  {
    OrderedByNeighbours([ProbeBucket, ProbeLambda]);
    PrefixOf([ProbeBucket, ProbeLambda], t, []);
    assert [ProbeBucket, ProbeLambda] + t + [] == [ProbeBucket, ProbeLambda] + t;
  }

  /** The handler's test of the validation result: as written at
      `if not validate and len(validate) > 1`, or as evidently intended. */
  datatype Guard = AsWritten | Intended

  /** The guard ends the request with the validation result. */
  predicate Stops(guard: Guard, validate: string) {
    match guard
    case AsWritten => Validator.GuardAsWritten(validate)
    case Intended => Validator.RejectsEvent(validate)
  }

  /** The event gets past the handler's checks: its bucket key can be
      read, validation raises nothing and the guard lets it through. */
  predicate Screened(guard: Guard, event: Event) {
    && Lookup(event, "s3_bucket").Ok?
    && Validator.ValidateField(event, Validator.RequiredFields).Ok?
    && !Stops(guard, Validator.ValidateField(event, Validator.RequiredFields).value)
  }

  /** The request reaches the dispatch on its action. */
  predicate Dispatched(guard: Guard, event: Event, w: World) {
    Screened(guard, event) && w.bucketReachable && w.lambdaReachable
  }

  /** `lambda_handler`, with the validation guard as written or as
      evidently intended (a non-empty validation result is returned). */
  method LambdaHandler(guard: Guard, event: Event, w: World) returns (trace: seq<Effect>, out: Outcome)
    ensures Ordered(trace) && FetchesFirst(trace, w.versions)
    ensures Lookup(event, "s3_bucket").Err? ==> trace == [] && out == Raised(KeyError("s3_bucket"))
    ensures (Lookup(event, "s3_bucket").Ok? && Validator.ValidateField(event, Validator.RequiredFields).Err?) ==>
      trace == [] && out == Raised(TypeError)
    ensures (Lookup(event, "s3_bucket").Ok? && Validator.ValidateField(event, Validator.RequiredFields).Ok?
             && Stops(guard, Validator.ValidateField(event, Validator.RequiredFields).value)) ==>
      trace == [] && out == Returned(Message(Validator.ValidateField(event, Validator.RequiredFields).value))
    ensures guard == AsWritten ==>
      (Screened(guard, event) <==>
        Lookup(event, "s3_bucket").Ok? && Validator.ValidateField(event, Validator.RequiredFields).Ok?)
    ensures trace != [] <==> Screened(guard, event)
    ensures trace != [] ==> trace[0] == ProbeBucket
    ensures Screened(guard, event) && !w.bucketReachable ==>
      trace == [ProbeBucket] && out == Returned(Message(NoBucketAccess))
    ensures Screened(guard, event) && w.bucketReachable && !w.lambdaReachable ==>
      trace == [ProbeBucket, ProbeLambda] && out == Returned(Message(NoLambdaAccess))
    ensures (guard == Intended && Dispatched(guard, event, w)) ==>
      forall k :: k in Validator.RequiredFields ==> k in Keys(event)
    ensures Dispatched(guard, event, w) && Lookup(event, "action").Err? ==>
      trace == [ProbeBucket, ProbeLambda] && out == Raised(KeyError("action"))
    ensures (Dispatched(guard, event, w) && Lookup(event, "action").Ok?
             && KeyFor(Lookup(event, "action").value).None?) ==>
      trace == [ProbeBucket, ProbeLambda] && out == Returned(NoReply)
    ensures Dispatched(guard, event, w) ==>
      && [ProbeBucket, ProbeLambda] <= trace
      && Dispatching(trace, out, Lookup(event, "action"), Lookup(event, "layer_name"),
                     SizeGuard.CheckSize(w.duOutput, PathFor(Lookup(event, "action"))), w)
      && Performs(trace[2..], out, event, w)
  {
    var bucket := Lookup(event, "s3_bucket");
    if bucket.Err? {
      return [], Raised(bucket.error);
    }
    var validate := Validator.ValidateField(event, Validator.RequiredFields);
    if validate.Err? {
      return [], Raised(validate.error);
    }
    Validator.GuardAsWrittenNeverHolds(validate.value);
    if Stops(guard, validate.value) {
      return [], Returned(Message(validate.value));
    }
    if !w.bucketReachable {
      return [ProbeBucket], Returned(Message(NoBucketAccess));
    }
    if !w.lambdaReachable {
      return [ProbeBucket, ProbeLambda], Returned(Message(NoLambdaAccess));
    }
    Validator.ValidateFieldEmptyIff(event, Validator.RequiredFields);
    var t;
    t, out := Dispatch(event, w);
    var probes := [ProbeBucket, ProbeLambda];
    ProbesFacts(t);
    DispatchingPrefix(probes, t, out, Lookup(event, "action"), Lookup(event, "layer_name"),
                      SizeGuard.CheckSize(w.duOutput, PathFor(Lookup(event, "action"))), w);
    trace := probes + t;
  }

  /** The event `{"s3_bucket": "b"}` under the guard as written: its
      diagnostic is ignored, both probes run, and reading its action
      raises. */
  method InvalidEventCarriesOn(w: World) returns (trace: seq<Effect>, out: Outcome)
    requires w.bucketReachable && w.lambdaReachable
    ensures trace == [ProbeBucket, ProbeLambda] && out == Raised(KeyError("action"))
  {
    var event: Event := [("s3_bucket", Str("b"))];
    Validator.InvalidEventPassesGuard();
    assert Keys(event) == ["s3_bucket"];
    trace, out := LambdaHandler(AsWritten, event, w);
  }

  /** The same event under the intended guard is turned away with its
      diagnostic, before any probe. */
  method InvalidEventTurnedAway(w: World) returns (trace: seq<Effect>, out: Outcome)
    ensures trace == [] && out == Returned(Message("Missing Keys: " + Validator.Repr(["layer_name", "libraries", "action"])))
  {
    var event: Event := [("s3_bucket", Str("b"))];
    Validator.InvalidEventPassesGuard();
    assert Keys(event) == ["s3_bucket"];
    trace, out := LambdaHandler(Intended, event, w);
  }
}
