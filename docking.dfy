/** `generate_pose`: fetch a protein and a ligand from the datastore, dock
    them with the VINA pose generator, check and summarise the poses and
    scores it returns, and upload the summary as a JSON object.

    The collaborators' behaviour is not visible here. The three calls the
    operation makes on them (download, `generate_poses`, upload) are given
    as functions from their arguments to what they return or the message of
    the exception they raise, and each of these calls is recorded, in order,
    as an `Event`. The temporary directory and the constructed pose
    generator are given as values (or the message of the error creating
    them) and are not recorded. */
module Docking {
  import opened Wrappers
  import opened Json
  import Decimal

  /** One docked protein-ligand complex, as the pose generator returns it. */
  type Complex

  /** The defaults of the `exhaustiveness` and `num_modes` parameters. */
  const DefaultExhaustiveness := 10
  const DefaultNumModes := 9

  const DockingMethod := "VINA"
  const SuccessMessage := "VINA docking completed successfully"
  const AffinityKey := "affinity (kcal/mol)"
  const ModePrefix := "mode "
  const ResultsSuffix := "_results.json"
  const ProteinFile := "protein.pdb"
  const LigandFile := "ligand.sdf"

  const DatastoreNotSetMessage := "Datastore not set"
  const InputRequiredMessage := "Protein and/or ligand input is required."
  const NoPosesMessage := "No docking poses or scores generated"
  const NoValidModesMessage := "No valid docking results generated"
  const UploadFailedMessage := "Failed to upload docking results to datastore"
  const FailurePrefix := "VINA docking failed: "

  /** The two exception classes the operation raises. */
  datatype Failure = ValueError(message: string) | Exception(message: string)

  /** Outcome of a call that returns nothing: it returns, or it raises with a message. */
  datatype Outcome = Done | Failed(message: string)

  /** The metadata card the summary is uploaded with. */
  datatype DataCard = DataCard(address: string, fileType: string, dataType: string)

  const ResultsCard := DataCard("", "json", "docking results")

  datatype Poses = Poses(complexes: seq<Complex>, scores: seq<Score>)

  datatype Datastore = Datastore(
    download: (string, string) -> Outcome,
    upload: (Value, string, DataCard) -> Result<Option<string>, string>)

  datatype PoseGenerator = PoseGenerator(
    generatePoses: (string, string, int, int, string, bool) -> Result<Poses, string>)

  /** What the operation finds around it: the configured datastore (or none),
      the temporary directory it is given (or the error creating it), and the
      pose generator it constructs (or the error constructing it). */
  datatype Env = Env(
    datastore: Option<Datastore>,
    tempDir: Result<string, string>,
    poseGenerator: Result<PoseGenerator, string>)

  datatype Event =
    | Download(address: string, localPath: string)
    | GeneratePoses(proteinPath: string, ligandPath: string, exhaustiveness: int,
                    numModes: int, outDir: string, generateScores: bool)
    | Upload(data: Value, name: string, card: DataCard)

  // ---------------------------------------------------------------------------
  // Paths

  /** POSIX `os.path.join(dir, name)` for a relative `name` without a leading '/'. */
  function JoinPath(dir: string, name: string): (p: string)
    ensures |p| >= |name| && p[|p| - |name|..] == name
    ensures |dir| <= |p| && p[..|dir|] == dir
  {
    if dir == [] || dir[|dir| - 1] == '/' then dir + name else dir + "/" + name
  }

  function ProteinPath(tmp: string): string { JoinPath(tmp, ProteinFile) }

  function LigandPath(tmp: string): string { JoinPath(tmp, LigandFile) }

  /** The protein and the ligand are downloaded to two different files. */
  lemma DistinctInputPaths(tmp: string)
    ensures ProteinPath(tmp) != LigandPath(tmp)
  {
  }

  // ---------------------------------------------------------------------------
  // Mode count

  /** `min(num_modes, len(complexes), len(scores))`. */
  function ActualModes(numModes: int, complexesCount: nat, scoresCount: nat): (m: int)
    ensures m <= numModes && m <= complexesCount && m <= scoresCount
    ensures m == numModes || m == complexesCount || m == scoresCount
  {
    if numModes <= complexesCount && numModes <= scoresCount then numModes
    else if complexesCount <= scoresCount then complexesCount
    else scoresCount
  }

  /** With both sequences non-empty, the clamped count is zero exactly when zero modes were asked for. */
  lemma ActualModesZero(numModes: int, complexesCount: nat, scoresCount: nat)
    requires complexesCount > 0 && scoresCount > 0
    ensures ActualModes(numModes, complexesCount, scoresCount) == 0 <==> numModes == 0
  {
  }

  // ---------------------------------------------------------------------------
  // The scores mapping

  /** The key of the `j`-th mode, `'mode %s' % j`. */
  function ModeKey(j: nat): (k: string)
    ensures |k| > |ModePrefix| && k[..|ModePrefix|] == ModePrefix
  {
    ModePrefix + Decimal.FromNat(j)
  }

  lemma ModeKeyInjective(i: nat, j: nat)
    ensures ModeKey(i) == ModeKey(j) ==> i == j
  {
    if ModeKey(i) == ModeKey(j) {
      assert ModeKey(i)[|ModePrefix|..] == Decimal.FromNat(i);
      assert ModeKey(j)[|ModePrefix|..] == Decimal.FromNat(j);
      Decimal.FromNatInjective(i, j);
    }
  }

  /** `{'affinity (kcal/mol)': float(score)}`. */
  function AffinityEntry(score: Score): Value {
    Object([(AffinityKey, Number(score))])
  }

  /** The mapping the summary reports for the first `n` scores: "mode 1" to
      "mode n", in that order, each with its score. A negative `n` gives no entries. */
  function ScoreMap(scores: seq<Score>, n: int): (d: Members)
    requires n <= |scores|
    ensures |d| == if n < 0 then 0 else n
    ensures forall i :: 0 <= i < |d| ==> d[i].0 == ModeKey(i + 1)
  {
    seq(if n < 0 then 0 else n, i requires 0 <= i < n => (ModeKey(i + 1), AffinityEntry(scores[i])))
  }

  /** No key of the mapping is repeated, so each assignment of the loop
      builds a new entry rather than overwriting one. */
  lemma ScoreMapDistinct(scores: seq<Score>, n: int)
    requires n <= |scores|
    ensures DistinctKeys(ScoreMap(scores, n))
  {
    var d := ScoreMap(scores, n);
    forall i, j | 0 <= i < j < |d| ensures d[i].0 != d[j].0 {
      ModeKeyInjective(i + 1, j + 1);
    }
  }

  /** The mapping has `max(n, 0)` entries, its keys are "mode 1" ... "mode n"
      in increasing order, and "mode j" holds the `j`-th score. */
  lemma ScoreMapShape(scores: seq<Score>, n: int)
    requires n <= |scores|
    ensures |ScoreMap(scores, n)| == if n < 0 then 0 else n
    ensures forall i :: 0 <= i < |ScoreMap(scores, n)| ==> Keys(ScoreMap(scores, n))[i] == ModeKey(i + 1)
    ensures forall j :: 1 <= j <= n ==> Lookup(ScoreMap(scores, n), ModeKey(j)) == Some(AffinityEntry(scores[j - 1]))
    ensures forall k :: (forall j :: 1 <= j <= n ==> k != ModeKey(j)) ==> Lookup(ScoreMap(scores, n), k) == None
  {
    var d := ScoreMap(scores, n);
    ScoreMapDistinct(scores, n);
    forall j | 1 <= j <= n ensures Lookup(d, ModeKey(j)) == Some(AffinityEntry(scores[j - 1])) {
      LookupAt(d, j - 1);
    }
  }

  lemma ScoreMapStep(scores: seq<Score>, i: nat)
    requires i < |scores|
    ensures ModeKey(i + 1) !in Keys(ScoreMap(scores, i))
    ensures ScoreMap(scores, i + 1) == ScoreMap(scores, i) + [(ModeKey(i + 1), AffinityEntry(scores[i]))]
  {
    var d := ScoreMap(scores, i);
    if ModeKey(i + 1) in Keys(d) {
      var m :| 0 <= m < |d| && Keys(d)[m] == ModeKey(i + 1);
      ModeKeyInjective(m + 1, i + 1);
    }
  }

  /** The loop that fills `scores_formatted`, one key per mode. */
  method FormatScores(scores: seq<Score>, actualModes: int) returns (formatted: Members)
    requires actualModes <= |scores|
    ensures formatted == ScoreMap(scores, actualModes)
  {
    formatted := [];
    var i := 0;
    while i < actualModes
      invariant 0 <= i <= |scores|
      invariant i <= if actualModes < 0 then 0 else actualModes
      invariant formatted == ScoreMap(scores, i)
    {
      ScoreMapStep(scores, i);
      formatted := Insert(formatted, ModeKey(i + 1), AffinityEntry(scores[i]));
      i := i + 1;
    }
    assert actualModes < 0 ==> ScoreMap(scores, actualModes) == [] == ScoreMap(scores, 0);
  }

  // ---------------------------------------------------------------------------
  // The results record

  const ResultKeys := ["docking_method", "num_modes", "scores", "complexes_count", "message"]

  /** The summary object, with its members in the order they are written. */
  function ResultsRecord(actualModes: int, formatted: Members, complexesCount: nat): (r: Value)
    ensures r.Object? && |r.members| == |ResultKeys|
  {
    Object([
      ("docking_method", Str(DockingMethod)),
      ("num_modes", Int(actualModes)),
      ("scores", Object(formatted)),
      ("complexes_count", Int(complexesCount)),
      ("message", Str(SuccessMessage))
    ])
  }

  /** The record has exactly the five fields, in order, with the values they are built from. */
  lemma ResultsRecordFields(actualModes: int, formatted: Members, complexesCount: nat)
    ensures ResultsRecord(actualModes, formatted, complexesCount).Object?
    ensures Keys(ResultsRecord(actualModes, formatted, complexesCount).members) == ResultKeys
    ensures var d := ResultsRecord(actualModes, formatted, complexesCount).members;
      Lookup(d, "docking_method") == Some(Str(DockingMethod)) &&
      Lookup(d, "num_modes") == Some(Int(actualModes)) &&
      Lookup(d, "scores") == Some(Object(formatted)) &&
      Lookup(d, "complexes_count") == Some(Int(complexesCount)) &&
      Lookup(d, "message") == Some(Str(SuccessMessage))
  {
    var d := ResultsRecord(actualModes, formatted, complexesCount).members;
    assert Keys(d) == ResultKeys;
    assert DistinctKeys(d);
    LookupAt(d, 0);
    LookupAt(d, 1);
    LookupAt(d, 2);
    LookupAt(d, 3);
    LookupAt(d, 4);
  }

  /** The validate-and-summarise step (everything between pose generation
      and upload): the summary of the generator's output, or the message
      of the validation error raised. */
  function Summary(numModes: int, complexes: seq<Complex>, scores: seq<Score>): (r: Result<Value, string>)
    ensures r.Err? <==> |complexes| == 0 || |scores| == 0 || numModes == 0
    ensures r.Err? ==> r.error in {NoPosesMessage, NoValidModesMessage}
  {
    if |complexes| == 0 || |scores| == 0 then Err(NoPosesMessage)
    else
      var actualModes := ActualModes(numModes, |complexes|, |scores|);
      if actualModes == 0 then Err(NoValidModesMessage)
      else Ok(ResultsRecord(actualModes, ScoreMap(scores, actualModes), |complexes|))
  }

  /** The message of each validation error. */
  lemma SummaryErrors(numModes: int, complexes: seq<Complex>, scores: seq<Score>)
    ensures |complexes| == 0 || |scores| == 0 ==> Summary(numModes, complexes, scores) == Err(NoPosesMessage)
    ensures |complexes| > 0 && |scores| > 0 && numModes == 0 ==>
      Summary(numModes, complexes, scores) == Err(NoValidModesMessage)
  {
  }

  /** A successful summary reports the VINA method, the clamped mode count,
      the unclamped complex count, the success message, and one "mode j"
      entry per reported mode holding the `j`-th score. */
  lemma SummaryContents(numModes: int, complexes: seq<Complex>, scores: seq<Score>)
    requires Summary(numModes, complexes, scores).Ok?
    ensures var m := ActualModes(numModes, |complexes|, |scores|);
      var d := Summary(numModes, complexes, scores).value.members;
      Keys(d) == ResultKeys &&
      Lookup(d, "docking_method") == Some(Str(DockingMethod)) &&
      Lookup(d, "num_modes") == Some(Int(m)) &&
      Lookup(d, "complexes_count") == Some(Int(|complexes|)) &&
      Lookup(d, "message") == Some(Str(SuccessMessage)) &&
      Lookup(d, "scores") == Some(Object(ScoreMap(scores, m)))
    ensures var m := ActualModes(numModes, |complexes|, |scores|);
      m <= numModes && m <= |complexes| && m <= |scores| &&
      |ScoreMap(scores, m)| == (if m < 0 then 0 else m) &&
      forall j :: 1 <= j <= m ==>
        Lookup(ScoreMap(scores, m), ModeKey(j)) == Some(AffinityEntry(scores[j - 1]))
  {
    var m := ActualModes(numModes, |complexes|, |scores|);
    ResultsRecordFields(m, ScoreMap(scores, m), |complexes|);
    ScoreMapShape(scores, m);
  }

  /** Only a request for exactly zero modes is refused: a negative one is
      accepted and reported as is, with no score entries. */
  lemma NegativeModesAccepted(numModes: int, complexes: seq<Complex>, scores: seq<Score>)
    requires numModes < 0 && |complexes| > 0 && |scores| > 0
    ensures Summary(numModes, complexes, scores) == Ok(ResultsRecord(numModes, [], |complexes|))
  {
    assert ScoreMap(scores, numModes) == [];
  }

  /** Three modes asked for, three complexes and three scores: all three are reported. */
  lemma ThreeModesExample(c1: Complex, c2: Complex, c3: Complex, s1: Score, s2: Score, s3: Score)
    ensures Summary(3, [c1, c2, c3], [s1, s2, s3]) == Ok(ResultsRecord(3, [
      ("mode 1", AffinityEntry(s1)), ("mode 2", AffinityEntry(s2)), ("mode 3", AffinityEntry(s3))], 3))
  {
    assert ModeKey(1) == "mode 1" && ModeKey(2) == "mode 2" && ModeKey(3) == "mode 3";
    assert ScoreMap([s1, s2, s3], 3) ==
      [("mode 1", AffinityEntry(s1)), ("mode 2", AffinityEntry(s2)), ("mode 3", AffinityEntry(s3))];
  }

  /** Nine modes asked for, but two complexes and two scores: two are reported, without an error. */
  lemma ClampedExample(c1: Complex, c2: Complex, s1: Score, s2: Score)
    ensures Summary(9, [c1, c2], [s1, s2]) == Ok(ResultsRecord(2, [
      ("mode 1", AffinityEntry(s1)), ("mode 2", AffinityEntry(s2))], 2))
  {
    assert ModeKey(1) == "mode 1" && ModeKey(2) == "mode 2";
    assert ScoreMap([s1, s2], 2) == [("mode 1", AffinityEntry(s1)), ("mode 2", AffinityEntry(s2))];
  }

  // ---------------------------------------------------------------------------
  // The operation

  /** Python falsiness of an address: `None` or the empty string. */
  predicate Falsy(address: Option<string>) {
    address.None? || address.value == ""
  }

  /** The form in which every exception raised inside the `try` reaches the caller. */
  function Wrapped(message: string): (f: Failure)
    ensures f.Exception? && FailurePrefix <= f.message
    ensures f.message[|FailurePrefix|..] == message
  {
    Exception(FailurePrefix + message)
  }

  /** The checks made before the `try` pass and the temporary directory exists. */
  predicate Ready(env: Env, protein: Option<string>, ligand: Option<string>) {
    env.datastore.Some? && !Falsy(protein) && !Falsy(ligand) && env.tempDir.Ok?
  }

  method GeneratePose(env: Env, proteinAddress: Option<string>, ligandAddress: Option<string>,
                      output: string, exhaustiveness: int, numModes: int)
    returns (r: Result<string, Failure>, events: seq<Event>)
    // Checks outside the `try`: raised as they are, before anything is called.
    ensures env.datastore.None? ==> r == Err(ValueError(DatastoreNotSetMessage)) && events == []
    ensures env.datastore.Some? && (Falsy(proteinAddress) || Falsy(ligandAddress)) ==>
      r == Err(ValueError(InputRequiredMessage)) && events == []
    ensures env.datastore.Some? && !Falsy(proteinAddress) && !Falsy(ligandAddress) && env.tempDir.Err? ==>
      r == Err(Wrapped(env.tempDir.error)) && events == []
    // Every failure past those checks carries the prefix.
    ensures env.datastore.Some? && !Falsy(proteinAddress) && !Falsy(ligandAddress) && r.Err? ==>
      r.error.Exception? && FailurePrefix <= r.error.message
    // The calls, in order: protein download, ligand download, generation, upload.
    ensures |events| <= 4
    ensures Ready(env, proteinAddress, ligandAddress) ==> |events| >= 1
    ensures |events| >= 1 ==>
      Ready(env, proteinAddress, ligandAddress) &&
      events[0] == Download(proteinAddress.value, ProteinPath(env.tempDir.value))
    ensures |events| >= 2 ==>
      Ready(env, proteinAddress, ligandAddress) &&
      var ds, tmp := env.datastore.value, env.tempDir.value;
      ds.download(proteinAddress.value, ProteinPath(tmp)).Done? &&
      events[1] == Download(ligandAddress.value, LigandPath(tmp))
    ensures |events| >= 3 ==>
      Ready(env, proteinAddress, ligandAddress) &&
      var ds, tmp := env.datastore.value, env.tempDir.value;
      ds.download(ligandAddress.value, LigandPath(tmp)).Done? && env.poseGenerator.Ok? &&
      events[2] == GeneratePoses(ProteinPath(tmp), LigandPath(tmp), exhaustiveness, numModes, tmp, true)
    // The one upload comes last, and only after the output passed validation.
    ensures forall i :: 0 <= i < |events| && events[i].Upload? ==> i == 3 == |events| - 1
    ensures |events| == 4 ==>
      Ready(env, proteinAddress, ligandAddress) && env.poseGenerator.Ok? &&
      var tmp := env.tempDir.value;
      var gen := env.poseGenerator.value.generatePoses(ProteinPath(tmp), LigandPath(tmp), exhaustiveness, numModes, tmp, true);
      gen.Ok? && Summary(numModes, gen.value.complexes, gen.value.scores).Ok? &&
      events[3] == Upload(Summary(numModes, gen.value.complexes, gen.value.scores).value, output + ResultsSuffix, ResultsCard)
    // Success is exactly an upload that returned an address, and that address is the result.
    ensures r.Ok? ==>
      |events| == 4 && env.datastore.Some? &&
      env.datastore.value.upload(events[3].data, events[3].name, events[3].card) == Ok(Some(r.value))
    ensures |events| == 4 && env.datastore.Some? ==>
      var up := env.datastore.value.upload(events[3].data, events[3].name, events[3].card);
      (up.Ok? && up.value.Some? ==> r.Ok?)
    // How each step that stops the run ends it.
    ensures |events| == 1 ==>
      Ready(env, proteinAddress, ligandAddress) &&
      var out := env.datastore.value.download(proteinAddress.value, ProteinPath(env.tempDir.value));
      out.Failed? && r == Err(Wrapped(out.message))
    ensures |events| == 2 ==>
      Ready(env, proteinAddress, ligandAddress) &&
      var out := env.datastore.value.download(ligandAddress.value, LigandPath(env.tempDir.value));
      ((out.Failed? && r == Err(Wrapped(out.message))) ||
       (out.Done? && env.poseGenerator.Err? && r == Err(Wrapped(env.poseGenerator.error))))
    ensures |events| == 3 ==>
      Ready(env, proteinAddress, ligandAddress) && env.poseGenerator.Ok? &&
      var tmp := env.tempDir.value;
      var gen := env.poseGenerator.value.generatePoses(ProteinPath(tmp), LigandPath(tmp), exhaustiveness, numModes, tmp, true);
      ((gen.Err? && r == Err(Wrapped(gen.error))) ||
       (gen.Ok? && Summary(numModes, gen.value.complexes, gen.value.scores).Err? &&
        r == Err(Wrapped(Summary(numModes, gen.value.complexes, gen.value.scores).error))))
    ensures |events| == 4 && r.Err? ==>
      env.datastore.Some? &&
      var up := env.datastore.value.upload(events[3].data, events[3].name, events[3].card);
      r == Err(Wrapped(if up.Err? then up.error else UploadFailedMessage))
  {
    events := [];
    if env.datastore.None? {
      return Err(ValueError(DatastoreNotSetMessage)), events;
    }
    var datastore := env.datastore.value;
    if Falsy(proteinAddress) || Falsy(ligandAddress) {
      return Err(ValueError(InputRequiredMessage)), events;
    }

    // try
    if env.tempDir.Err? {
      return Err(Wrapped(env.tempDir.error)), events;
    }
    var tmp := env.tempDir.value;

    var proteinPath := ProteinPath(tmp);
    var proteinDownload := Download(proteinAddress.value, proteinPath);
    var fetched := datastore.download(proteinAddress.value, proteinPath);
    if fetched.Failed? {
      return Err(Wrapped(fetched.message)), [proteinDownload];
    }

    var ligandPath := LigandPath(tmp);
    var ligandDownload := Download(ligandAddress.value, ligandPath);
    fetched := datastore.download(ligandAddress.value, ligandPath);
    if fetched.Failed? {
      return Err(Wrapped(fetched.message)), [proteinDownload, ligandDownload];
    }

    if env.poseGenerator.Err? {
      return Err(Wrapped(env.poseGenerator.error)), [proteinDownload, ligandDownload];
    }
    var generator := env.poseGenerator.value;

    var generation := GeneratePoses(proteinPath, ligandPath, exhaustiveness, numModes, tmp, true);
    events := [proteinDownload, ligandDownload, generation];
    var generated := generator.generatePoses(proteinPath, ligandPath, exhaustiveness, numModes, tmp, true);
    if generated.Err? {
      return Err(Wrapped(generated.error)), events;
    }
    var complexes, scores := generated.value.complexes, generated.value.scores;

    if |complexes| == 0 || |scores| == 0 {
      return Err(Wrapped(NoPosesMessage)), events;
    }
    var actualModes := ActualModes(numModes, |complexes|, |scores|);
    if actualModes == 0 {
      return Err(Wrapped(NoValidModesMessage)), events;
    }

    var scoresFormatted := FormatScores(scores, actualModes);
    var results := ResultsRecord(actualModes, scoresFormatted, |complexes|);

    var name := output + ResultsSuffix;
    events := [proteinDownload, ligandDownload, generation, Upload(results, name, ResultsCard)];
    var uploaded := datastore.upload(results, name, ResultsCard);
    if uploaded.Err? {
      return Err(Wrapped(uploaded.error)), events;
    }
    if uploaded.value.None? {
      return Err(Wrapped(UploadFailedMessage)), events;
    }
    r := Ok(uploaded.value.value);
  }
}
