# VINA docking orchestration (`generate_pose`) in Dafny

This project models `generate_pose` from deepchem-server. The function fetches a
protein and a ligand from the datastore into a temporary directory. It runs the
VINA pose generator on them and checks the complexes and scores it returns.
It clamps the mode count, builds the JSON summary of the scores and uploads the
summary back to the datastore under `<output>_results.json`. It returns the
address of the upload, or fails.

Files:

- `wrappers.dfy` (module `Wrappers`): `Option` for a value that may be
  Python's `None`, and `Result` for a call that either returns or raises.
- `json.dfy` (module `Json`): the JSON values the summary is made of, and
  Python's insertion-ordered `dict` as a sequence of (key, value) members.
  `Insert` is `d[k] = v`: an existing key keeps its place, a new one goes to
  the end.
- `decimal.dfy` (module `Decimal`): the decimal text of a non-negative `int`, as
  `'%s' % n` prints it, together with its parser and both round trips.
- `docking.dfy` (module `Docking`): the constants and messages, the clamped mode
  count, the scores mapping (the function `ScoreMap` and the loop method
  `FormatScores` proved against it), the results record, the validation step as
  a function `Summary`, and the whole operation as the method `GeneratePose`.

The collaborators are parameters of `GeneratePose`, packed in an `Env`.
`config.get_datastore()` is the `Option` in `Env.datastore`. The three calls
the operation makes on collaborators are given as functions from their
arguments to what they return, or to the message of the exception they raise:
the datastore's download and upload, and the pose generator's `generate_poses`.
`GeneratePose` returns these calls, in order, as a list of `Event`s, beside its
result (an address, or a `ValueError`/`Exception` with its message). The
temporary directory (`docking.py:46`) and the constructed pose generator
(`docking.py:57`) are given as plain values, or as the message of the error
creating them. Neither is recorded as an `Event`.

Three points of the code's behaviour are easy to miss:

- `num_modes` is refused only when it is exactly 0 (`docking.py:74`). A
  negative request gets through: it is reported as is, with an empty scores
  mapping (`NegativeModesAccepted`).
- The checks at `docking.py:38-43` sit before the `try`, so they raise bare
  `ValueError`s. An exception raised inside the `try` reaches the caller as an
  `Exception` whose message is `"VINA docking failed: "` followed by the
  original message.
- The parameter defaults `exhaustiveness=10` and `num_modes=9`
  (`docking.py:13-14`) are the constants `DefaultExhaustiveness` and
  `DefaultNumModes`. `GeneratePose` takes both values explicitly.

## Model

| member | source | states |
|---|---|---|
| `Json.Insert` | deepchem_server/core/docking.py:83 | dict assignment: the key then holds the value; a new key is appended at the end; an existing key keeps the key order |
| `Json.InsertOthers` | deepchem_server/core/docking.py:83 | assigning one key leaves the value of every other key unchanged |
| `Json.InsertDistinct` | deepchem_server/core/docking.py:83 | a dict built by assignment never holds a key twice |
| `Json.LookupAt` | deepchem_server/core/docking.py:81-91 | in a dict with distinct keys, looking up the key at position i finds the value at position i |
| `Decimal.FromNat` | deepchem_server/core/docking.py:83 | `'%s' % n` for n >= 0 is non-empty, all digits, and starts with '0' only when it is "0" |
| `Decimal.ToNatFromNat` | deepchem_server/core/docking.py:83 | reading back the decimal text of n gives n |
| `Decimal.FromNatInjective` | deepchem_server/core/docking.py:83 | different mode numbers get different decimal texts |
| `Decimal.FromNatToNat` | deepchem_server/core/docking.py:83 | every canonical decimal text is the text of the number it denotes (the other round trip) |
| `Docking.JoinPath` | deepchem_server/core/docking.py:49 | `os.path.join(dir, name)` begins with the directory and ends with the file name |
| `Docking.DistinctInputPaths` | deepchem_server/core/docking.py:49-54 | the protein and the ligand are downloaded to different files of the scratch directory |
| `Docking.ActualModes` | deepchem_server/core/docking.py:73 | the clamped count is at most the requested count, at most the number of complexes and at most the number of scores, and equals one of the three |
| `Docking.ActualModesZero` | deepchem_server/core/docking.py:69-75 | once both outputs are non-empty, the clamped count is 0 exactly when 0 modes were requested |
| `Docking.ModeKey` | deepchem_server/core/docking.py:83 | each key is "mode " followed by the mode number |
| `Docking.ModeKeyInjective` | deepchem_server/core/docking.py:83 | different modes get different keys |
| `Docking.ScoreMap` | deepchem_server/core/docking.py:81-83 | the definition of the scores mapping that the `ScoreMap...` rows and `FormatScores` are about: max(n, 0) entries, the i-th keyed "mode i+1" |
| `Docking.ScoreMapDistinct` | deepchem_server/core/docking.py:81-83 | no key of the scores mapping repeats, so no assignment of the loop overwrites an earlier mode |
| `Docking.ScoreMapShape` | deepchem_server/core/docking.py:81-83 | the mapping has max(n, 0) entries; its keys are "mode 1" to "mode n" in increasing order; "mode j" holds score j-1; every other key is absent |
| `Docking.ScoreMapStep` | deepchem_server/core/docking.py:82-83 | the key of mode i+1 is new, and adding it extends the mapping for i modes by one entry at the end |
| `Docking.FormatScores` | deepchem_server/core/docking.py:81-83 | the loop builds exactly the mapping of the first `actual_modes` scores, for any `actual_modes` up to the number of scores, negative included |
| `Docking.ResultsRecord` | deepchem_server/core/docking.py:85-91 | the definition of the results record that `ResultsRecordFields` is about: an object with one member per result key |
| `Docking.ResultsRecordFields` | deepchem_server/core/docking.py:85-91 | the record has the five fields in the source's order, with method "VINA", the given mode count, the scores mapping, the complex count and the success message |
| `Docking.Summary` | deepchem_server/core/docking.py:69-91 | validation fails exactly when the complexes are empty, the scores are empty, or 0 modes were requested, and its message is one of the two validation messages |
| `Docking.SummaryErrors` | deepchem_server/core/docking.py:69-75 | empty complexes or scores give "No docking poses or scores generated"; otherwise a request for 0 modes gives "No valid docking results generated" |
| `Docking.SummaryContents` | deepchem_server/core/docking.py:73-91 | a successful summary reports "VINA", the clamped count, the unclamped complex count, the success message and one entry per reported mode holding that mode's score; the count is within all three bounds |
| `Docking.NegativeModesAccepted` | deepchem_server/core/docking.py:73-91 | a negative request passes validation and is reported as is, with no score entries |
| `Docking.ThreeModesExample` | deepchem_server/core/docking.py:69-91 | 3 modes requested, with 3 complexes and 3 scores, gives "mode 1" to "mode 3" with those scores and 3 complexes |
| `Docking.ClampedExample` | deepchem_server/core/docking.py:69-91 | 9 modes requested, with 2 complexes and 2 scores, reports 2 modes and no error |
| `Docking.Wrapped` | deepchem_server/core/docking.py:105-106 | a wrapped failure is an `Exception` whose message is the prefix followed by the original message |
| `Docking.GeneratePose` | deepchem_server/core/docking.py:38-106 | no datastore, or a falsy address, fails with the bare `ValueError` before any call; later failures are wrapped; calls go in the order protein download, ligand download, generation, upload; there is at most one upload, it is the last call, it happens only after validation, and it sends the `Summary` record as `<output>_results.json` with the card; upload errors and a `None` address fail; success returns the uploaded address; each stopping point fails with that step's wrapped message |

## Left out

- Progress reporting (`log_progress`): a fire-and-forget side effect that
  decides nothing. A failure of the progress logger is not modelled either.
- The lifetime of the temporary directory (creation and the `with` block's
  cleanup): the model is given the directory's name, or the error creating it.
  Removal of the directory on every exit path is not modelled.
- The internals of the pose generator and of the datastore. They are
  functions of their arguments only. So the model does not capture that
  generation reads the files the downloads wrote, or that the datastore keeps
  state between calls.
- The round trip "upload the summary, then read it back" belongs to the
  datastore. Only the value handed to the upload is modelled.
- JSON serialisation of the summary, and `float(...)` of each score: a score is
  an opaque value (`Json.Score`). The model does no floating-point arithmetic.
  A `float(...)` conversion that raises (`docking.py:83`) would be wrapped by the
  source; the model has no such failure.
- An exception raised by `config.get_datastore()` itself (`docking.py:38`) is
  outside the `try` and reaches the caller unwrapped. The model has no such
  case: `Env.datastore` is either a datastore or `None`.
- `DataCard` is kept only as its three constant fields: an empty address, file
  type "json" and data type "docking results".
- The generator returns its two outputs as sequences. A `None` or another
  non-sequence value is not modelled. Depending on the value, the source
  rejects it at `docking.py:69`, fails at `docking.py:73` or `docking.py:83`, or
  accepts it (a non-empty set of complexes, say).
- `Docking.JoinPath` models POSIX `os.path.join` only, and only for a relative
  file name, which is the only kind the operation joins.
- The message a collaborator's exception carries is given as the string
  `str(e)` would produce.
