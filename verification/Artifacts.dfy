// app/artifacts.py: the content-addressed store, and the manifests that bind a stage
// run to the bundle of contents it produced. Files are found under their digest, which
// is what the storage key is made from.
module Artifacts {
  import opened Prelude
  import StageControl
  import Utf8

  type Data = Utf8.Bytes
  type Stage = StageControl.Stage

  datatype Content = Content(role: string, data: Data, media: string, id: string)
  datatype Bundle = Bundle(stage: Stage, result: string, contents: seq<Content>)

  datatype Artifact = Artifact(size: nat, media: string)
  datatype Run = Run(job: nat, attempt: nat, stage: Stage, spec: string)
  datatype Entry = Entry(position: nat, role: string, artifact: string)

  datatype PayloadEntry = PayloadEntry(position: nat, role: string, artifact: string, size: nat, media: string)
  datatype Payload = Payload(
    manifest: nat, job: nat, run: nat, attempt: nat, stage: Stage, spec: string, result: string, entries: seq<PayloadEntry>)

  datatype Manifest = Manifest(
    run: nat, job: nat, attempt: nat, stage: Stage, spec: string, result: string, count: nat, hash: string, entries: seq<Entry>)

  // The digest functions, and the stage runs, which are never changed.
  datatype Env = Env(sha: Data -> string, hash: Payload -> string, runs: seq<Run>)

  // A manifest's id is its place; links are (job, artifact, role).
  datatype Store = Store(
    files: map<string, Data>, artifacts: map<string, Artifact>, links: set<(nat, string, string)>, manifests: seq<Manifest>)

  datatype ArtifactError = NotFound | Integrity

  const MAX_BUNDLE_BYTES := 96000000
  const MAX_MEDIA := 255
  const MAX_ROLE := 80

  function Roles(stage: Stage): seq<string> {
    match stage
    case Explore => ["stage-result"]
    case Implement => ["stage-result", "file-inventory", "unified-diff"]
    case Verify => ["stage-result", "normalized-test-results"]
  }

  // ---------- What a bundle is checked for when it is made ----------

  predicate ContentOk(env: Env, c: Content) {
    0 < |c.role| <= MAX_ROLE && 0 < |c.media| <= MAX_MEDIA && c.id == env.sha(c.data)
  }

  function TotalBytes(contents: seq<Content>): nat {
    if contents == [] then 0 else |contents[0].data| + TotalBytes(contents[1..])
  }

  predicate BundleOk(env: Env, b: Bundle) {
    && (forall i | 0 <= i < |b.contents| :: ContentOk(env, b.contents[i]))
    && TotalBytes(b.contents) <= MAX_BUNDLE_BYTES
    && |b.contents| == |Roles(b.stage)| && (forall i | 0 <= i < |b.contents| :: b.contents[i].role == Roles(b.stage)[i])
    && b.result == b.contents[0].id
  }

  // ---------- store_bytes ----------

  // _verify_file
  predicate FileFits(env: Env, file: Data, id: string, size: nat) {
    |file| == size && env.sha(file) == id
  }

  function Truncated(media: string): string {
    if |media| <= MAX_MEDIA then media else media[..MAX_MEDIA]
  }

  // The store afterwards, and the artifact's id. A file once written stays, whatever
  // becomes of the transaction.
  function StoreBytes(env: Env, st: Store, data: Data, media: string): (Store, Result<string, ArtifactError>) {
    var id := env.sha(data);
    if id in st.files && !FileFits(env, st.files[id], id, |data|) then (st, Err(Integrity))
    else
      var written := if id in st.files then st else st.(files := st.files[id := data]);
      if id in st.artifacts then
        if st.artifacts[id] != Artifact(|data|, media) then (written, Err(Integrity)) else (written, Ok(id))
      else (written.(artifacts := written.artifacts[id := Artifact(|data|, Truncated(media))]), Ok(id))
  }

  // ---------- read_bytes ----------

  function ReadBytes(env: Env, st: Store, id: string): Result<Data, ArtifactError> {
    if id !in st.artifacts then Err(NotFound)
    else if id !in st.files || !FileFits(env, st.files[id], id, st.artifacts[id].size) then Err(Integrity)
    else Ok(st.files[id])
  }

  // ---------- The verifier ----------

  // One entry of a manifest: its metadata, its link to the job, and its file.
  predicate EntryOk(env: Env, st: Store, m: Manifest, i: nat)
    requires i < |m.entries|
  {
    var e := m.entries[i];
    e.artifact in st.artifacts && i < |Roles(m.stage)| && e.position == i && e.role == Roles(m.stage)[i]
    && 0 < |st.artifacts[e.artifact].media| <= MAX_MEDIA && (m.job, e.artifact, e.role) in st.links
    && e.artifact in st.files && FileFits(env, st.files[e.artifact], e.artifact, st.artifacts[e.artifact].size)
  }

  function EntryPayload(st: Store, e: Entry): PayloadEntry {
    if e.artifact in st.artifacts
    then PayloadEntry(e.position, e.role, e.artifact, st.artifacts[e.artifact].size, st.artifacts[e.artifact].media)
    else PayloadEntry(e.position, e.role, e.artifact, 0, "")
  }

  function EntryPayloads(st: Store, entries: seq<Entry>): (r: seq<PayloadEntry>)
    ensures |r| == |entries| && forall i | 0 <= i < |r| :: r[i] == EntryPayload(st, entries[i])
  {
    if entries == [] then [] else [EntryPayload(st, entries[0])] + EntryPayloads(st, entries[1..])
  }

  // _verify_execution_manifest_records, without the ended stage.
  predicate RecordsOk(env: Env, st: Store, id: nat)
    requires id < |st.manifests|
  {
    var m := st.manifests[id];
    m.run < |env.runs| &&
    var run := env.runs[m.run];
    (forall i | 0 <= i < |m.entries| :: EntryOk(env, st, m, i))
    && |m.entries| == |Roles(m.stage)| == m.count && m.entries != [] && m.job == run.job && m.attempt == run.attempt
    && m.stage == run.stage && m.spec == run.spec && m.result == m.entries[0].artifact
    && m.hash == env.hash(Payload(id, run.job, m.run, run.attempt, m.stage, run.spec, m.result, EntryPayloads(st, m.entries)))
  }

  // _verify_execution_manifest: the records, and that they are this bundle's.
  predicate ManifestIs(env: Env, st: Store, id: nat, b: Bundle)
    requires id < |st.manifests|
  {
    var m := st.manifests[id];
    RecordsOk(env, st, id) && m.stage == b.stage && m.result == b.result && |m.entries| == |b.contents|
    && forall i | 0 <= i < |m.entries| :: EntryIs(st, m.entries[i], b.contents[i])
  }

  predicate EntryIs(st: Store, e: Entry, c: Content) {
    e.role == c.role && e.artifact == c.id && e.artifact in st.artifacts && st.artifacts[e.artifact] == Artifact(|c.data|, c.media)
  }

  // ---------- The writer ----------

  function StoreAll(env: Env, st: Store, contents: seq<Content>): (Store, bool)
    decreases |contents|
  {
    if contents == [] then (st, true)
    else
      var (next, r) := StoreBytes(env, st, contents[0].data, contents[0].media);
      if r != Ok(contents[0].id) then (next, false) else StoreAll(env, next, contents[1..])
  }

  function NewEntries(contents: seq<Content>): seq<Entry> {
    seq(|contents|, i requires 0 <= i < |contents| => Entry(i, contents[i].role, contents[i].id))
  }

  // The payload the writer hashes, from the bundle and the stored artifacts.
  function NewPayload(env: Env, st: Store, run: nat, b: Bundle): Payload
    requires run < |env.runs|
  {
    var r := env.runs[run];
    Payload(|st.manifests|, r.job, run, r.attempt, b.stage, r.spec, b.result, EntryPayloads(st, NewEntries(b.contents)))
  }

  function NewLinks(job: nat, contents: seq<Content>): set<(nat, string, string)> {
    set i | 0 <= i < |contents| :: (job, contents[i].id, contents[i].role)
  }

  function WithManifest(env: Env, st: Store, run: nat, b: Bundle): Store
    requires run < |env.runs|
  {
    var r := env.runs[run];
    st.(links := st.links + NewLinks(r.job, b.contents),
        manifests := st.manifests + [Manifest(run, r.job, r.attempt, r.stage, r.spec, b.result, |b.contents|,
                                              env.hash(NewPayload(env, st, run, b)), NewEntries(b.contents))])
  }

  function ManifestOf(manifests: seq<Manifest>, run: nat, from: nat): (r: Option<nat>)
    requires from <= |manifests|
    ensures r.Some? ==> from <= r.value < |manifests| && manifests[r.value].run == run
    ensures r.None? ==> forall k | from <= k < |manifests| :: manifests[k].run != run
    decreases |manifests| - from
  {
    if from == |manifests| then None else if manifests[from].run == run then Some(from) else ManifestOf(manifests, run, from + 1)
  }

  // finalize_execution_bundle, in the transaction of its caller: an error leaves the
  // tables as they were, and only files behind.
  function Finalize(env: Env, st: Store, run: nat, b: Bundle, running: bool): (Store, Result<nat, ArtifactError>) {
    if run >= |env.runs| then (st, Err(NotFound))
    else if env.runs[run].stage != b.stage then (st, Err(Integrity))
    else
      var existing := ManifestOf(st.manifests, run, 0);
      if existing.Some? then
        if ManifestIs(env, st, existing.value, b) then (st, Ok(existing.value)) else (st, Err(Integrity))
      else if !running then (st, Err(Integrity))
      else
        var (stored, ok) := StoreAll(env, st, b.contents);
        if !ok then (st.(files := stored.files), Err(Integrity))
        else
          var made := WithManifest(env, stored, run, b);
          if ManifestIs(env, made, |stored.manifests|, b) then (made, Ok(|stored.manifests|)) else (st.(files := stored.files), Err(Integrity))
  }

  // ---------- Nothing stored is ever changed ----------

  predicate Grows(st: Store, t: Store) {
    && (forall id | id in st.files :: id in t.files && t.files[id] == st.files[id])
    && (forall id | id in st.artifacts :: id in t.artifacts && t.artifacts[id] == st.artifacts[id])
    && st.links <= t.links && st.manifests <= t.manifests
  }

  lemma GrowsOn(a: Store, b: Store, c: Store)
    requires Grows(a, b) && Grows(b, c)
    ensures Grows(a, c)
  {
  }

  lemma StoreBytesGrows(env: Env, st: Store, data: Data, media: string)
    ensures Grows(st, StoreBytes(env, st, data, media).0)
    ensures StoreBytes(env, st, data, media).0.manifests == st.manifests
  {
  }

  lemma {:induction false} StoreAllGrows(env: Env, st: Store, contents: seq<Content>)
    ensures Grows(st, StoreAll(env, st, contents).0) && StoreAll(env, st, contents).0.manifests == st.manifests
    decreases |contents|
  {
    if contents != [] {
      var next := StoreBytes(env, st, contents[0].data, contents[0].media).0;
      StoreBytesGrows(env, st, contents[0].data, contents[0].media);
      StoreAllGrows(env, next, contents[1..]);
    }
  }

  lemma RecordsStay(env: Env, st: Store, t: Store, id: nat)
    requires Grows(st, t) && id < |st.manifests| && RecordsOk(env, st, id)
    ensures RecordsOk(env, t, id)
  {
    var m := st.manifests[id];
    forall i | 0 <= i < |m.entries| ensures EntryOk(env, t, m, i) && EntryPayload(t, m.entries[i]) == EntryPayload(st, m.entries[i]) {
      assert EntryOk(env, st, m, i);
    }
    assert EntryPayloads(t, m.entries) == EntryPayloads(st, m.entries);
  }

  lemma BundleStays(env: Env, st: Store, t: Store, id: nat, b: Bundle)
    requires Grows(st, t) && id < |st.manifests| && RecordsOk(env, st, id) && |st.manifests[id].entries| == |b.contents|
    ensures ManifestIs(env, t, id, b) <==> ManifestIs(env, st, id, b)
  {
    RecordsStay(env, st, t, id);
    var m := st.manifests[id];
    forall i | 0 <= i < |m.entries| ensures EntryIs(t, m.entries[i], b.contents[i]) <==> EntryIs(st, m.entries[i], b.contents[i]) {
      assert EntryOk(env, st, m, i);
    }
  }

  // ---------- The writer and the verifier agree ----------

  predicate StoredAs(env: Env, st: Store, c: Content) {
    c.id in st.artifacts && st.artifacts[c.id] == Artifact(|c.data|, c.media)
    && c.id in st.files && FileFits(env, st.files[c.id], c.id, |c.data|)
  }

  // Every artifact has its file, and every file its digest.
  predicate FilesSound(env: Env, st: Store) {
    (forall id | id in st.artifacts :: id in st.files && |st.files[id]| == st.artifacts[id].size)
    && forall id | id in st.files :: env.sha(st.files[id]) == id
  }

  lemma StoreBytesSound(env: Env, st: Store, data: Data, media: string)
    requires FilesSound(env, st)
    ensures FilesSound(env, StoreBytes(env, st, data, media).0)
  {
  }

  lemma StoreOne(env: Env, st: Store, c: Content)
    requires FilesSound(env, st) && ContentOk(env, c) && StoreBytes(env, st, c.data, c.media).1.Ok?
    ensures StoredAs(env, StoreBytes(env, st, c.data, c.media).0, c) && StoreBytes(env, st, c.data, c.media).1 == Ok(c.id)
  {
  }

  lemma {:induction false} StoreAllStored(env: Env, st: Store, contents: seq<Content>)
    requires FilesSound(env, st) && forall i | 0 <= i < |contents| :: ContentOk(env, contents[i])
    ensures FilesSound(env, StoreAll(env, st, contents).0)
    ensures StoreAll(env, st, contents).1 ==> forall i | 0 <= i < |contents| :: StoredAs(env, StoreAll(env, st, contents).0, contents[i])
    decreases |contents|
  {
    if contents != [] {
      var c := contents[0];
      var (next, r) := StoreBytes(env, st, c.data, c.media);
      StoreBytesSound(env, st, c.data, c.media);
      if r == Ok(c.id) {
        StoreOne(env, st, c);
        StoreAllStored(env, next, contents[1..]);
        StoreAllGrows(env, next, contents[1..]);
        var done := StoreAll(env, next, contents[1..]).0;
        forall i | 0 <= i < |contents| && StoreAll(env, st, contents).1 ensures StoredAs(env, done, contents[i]) {
          if i > 0 {
            assert contents[i] == contents[1..][i - 1];
          }
        }
      }
    }
  }

  // The manifest that the writer makes of stored contents is the one that the verifier
  // rebuilds from the tables: its hash, its entries and its bundle.
  lemma WrittenManifestVerifies(env: Env, st: Store, run: nat, b: Bundle)
    requires run < |env.runs| && env.runs[run].stage == b.stage && BundleOk(env, b) && FilesSound(env, st)
    requires forall i | 0 <= i < |b.contents| :: StoredAs(env, st, b.contents[i])
    ensures ManifestIs(env, WithManifest(env, st, run, b), |st.manifests|, b)
  {
    var made := WithManifest(env, st, run, b);
    var m := made.manifests[|st.manifests|];
    forall i | 0 <= i < |m.entries| ensures EntryOk(env, made, m, i) && EntryIs(made, m.entries[i], b.contents[i]) {
      assert StoredAs(env, st, b.contents[i]) && ContentOk(env, b.contents[i]);
    }
    assert EntryPayloads(made, m.entries) == EntryPayloads(st, NewEntries(b.contents));
  }

  // So a first finalization succeeds exactly when its contents could be stored: the
  // verification at its end never fails.
  lemma FinalizeIsStoring(env: Env, st: Store, run: nat, b: Bundle)
    requires run < |env.runs| && env.runs[run].stage == b.stage && BundleOk(env, b) && FilesSound(env, st)
    requires ManifestOf(st.manifests, run, 0).None?
    ensures Finalize(env, st, run, b, true).1.Ok? <==> StoreAll(env, st, b.contents).1
    ensures Finalize(env, st, run, b, true).1.Ok? ==>
      Finalize(env, st, run, b, true).0 == WithManifest(env, StoreAll(env, st, b.contents).0, run, b)
  {
    StoreAllStored(env, st, b.contents);
    StoreAllGrows(env, st, b.contents);
    if StoreAll(env, st, b.contents).1 {
      WrittenManifestVerifies(env, StoreAll(env, st, b.contents).0, run, b);
    }
  }

  // ---------- Every run ----------

  datatype Step = StoreStep(data: Data, media: string) | FinalizeStep(run: nat, bundle: Bundle, running: bool)

  // A bundle that could not be made is never finalized.
  function Next(env: Env, st: Store, step: Step): Store {
    match step
    case StoreStep(data, media) => StoreBytes(env, st, data, media).0
    case FinalizeStep(run, bundle, running) => if BundleOk(env, bundle) then Finalize(env, st, run, bundle, running).0 else st
  }

  function After(env: Env, st: Store, steps: seq<Step>): Store
    decreases |steps|
  {
    if steps == [] then st else After(env, Next(env, st, steps[0]), steps[1..])
  }

  const EMPTY := Store(map[], map[], {}, [])

  predicate OnePerRun(manifests: seq<Manifest>) {
    forall i, k | 0 <= i < k < |manifests| :: manifests[i].run != manifests[k].run
  }

  predicate Sound(env: Env, st: Store) {
    FilesSound(env, st) && OnePerRun(st.manifests) && forall id | 0 <= id < |st.manifests| :: RecordsOk(env, st, id)
  }

  lemma RecordsKept(env: Env, st: Store, t: Store)
    requires Sound(env, st) && Grows(st, t) && t.manifests == st.manifests && FilesSound(env, t)
    ensures Sound(env, t)
  {
    forall id | 0 <= id < |t.manifests| ensures RecordsOk(env, t, id) {
      RecordsStay(env, st, t, id);
    }
  }

  lemma StoreKeeps(env: Env, st: Store, data: Data, media: string)
    requires Sound(env, st)
    ensures Sound(env, StoreBytes(env, st, data, media).0) && Grows(st, StoreBytes(env, st, data, media).0)
  {
    StoreBytesGrows(env, st, data, media);
    StoreBytesSound(env, st, data, media);
    RecordsKept(env, st, StoreBytes(env, st, data, media).0);
  }

  lemma FilesLeft(env: Env, st: Store, b: Bundle)
    requires Sound(env, st) && BundleOk(env, b)
    ensures var left := st.(files := StoreAll(env, st, b.contents).0.files); Sound(env, left) && Grows(st, left)
  {
    StoreAllStored(env, st, b.contents);
    StoreAllGrows(env, st, b.contents);
    RecordsKept(env, st, st.(files := StoreAll(env, st, b.contents).0.files));
  }

  lemma ManifestAdded(env: Env, st: Store, run: nat, b: Bundle)
    requires Sound(env, st) && run < |env.runs| && env.runs[run].stage == b.stage && BundleOk(env, b)
    requires ManifestOf(st.manifests, run, 0).None? && forall i | 0 <= i < |b.contents| :: StoredAs(env, st, b.contents[i])
    ensures Sound(env, WithManifest(env, st, run, b)) && Grows(st, WithManifest(env, st, run, b))
  {
    var made := WithManifest(env, st, run, b);
    WrittenManifestVerifies(env, st, run, b);
    forall id | 0 <= id < |made.manifests| ensures RecordsOk(env, made, id) {
      if id < |st.manifests| {
        RecordsStay(env, st, made, id);
      }
    }
  }

  lemma FinalizeKeeps(env: Env, st: Store, run: nat, b: Bundle, running: bool)
    requires Sound(env, st) && BundleOk(env, b)
    ensures Sound(env, Finalize(env, st, run, b, running).0) && Grows(st, Finalize(env, st, run, b, running).0)
  {
    if run < |env.runs| && env.runs[run].stage == b.stage && ManifestOf(st.manifests, run, 0).None? && running {
      var (stored, ok) := StoreAll(env, st, b.contents);
      FilesLeft(env, st, b);
      StoreAllStored(env, st, b.contents);
      StoreAllGrows(env, st, b.contents);
      FinalizeIsStoring(env, st, run, b);
      if ok {
        RecordsKept(env, st, stored);
        ManifestAdded(env, stored, run, b);
        GrowsOn(st, stored, WithManifest(env, stored, run, b));
      }
    }
  }

  lemma {:induction false} RunKeeps(env: Env, st: Store, steps: seq<Step>)
    requires Sound(env, st)
    ensures Sound(env, After(env, st, steps)) && Grows(st, After(env, st, steps))
    decreases |steps|
  {
    if steps != [] {
      var next := Next(env, st, steps[0]);
      match steps[0] {
        case StoreStep(data, media) => StoreKeeps(env, st, data, media);
        case FinalizeStep(run, bundle, running) =>
          if BundleOk(env, bundle) {
            FinalizeKeeps(env, st, run, bundle, running);
          }
      }
      RunKeeps(env, next, steps[1..]);
      GrowsOn(st, next, After(env, next, steps[1..]));
    }
  }

  // The independent verifier accepts every manifest there is, in every reachable store.
  lemma EveryManifestVerifies(env: Env, steps: seq<Step>, id: nat)
    requires id < |After(env, EMPTY, steps).manifests|
    ensures RecordsOk(env, After(env, EMPTY, steps), id)
  {
    RunKeeps(env, EMPTY, steps);
  }

  predicate NoCollision(env: Env, b: Bundle, c: Bundle) {
    forall i, k | 0 <= i < |b.contents| && 0 <= k < |c.contents| :: env.sha(b.contents[i].data) == env.sha(c.contents[k].data) ==> b.contents[i].data == c.contents[k].data
  }

  lemma FinalizedIs(env: Env, st: Store, run: nat, b: Bundle, running: bool)
    requires Sound(env, st) && BundleOk(env, b) && Finalize(env, st, run, b, running).1.Ok?
    ensures var (next, r) := Finalize(env, st, run, b, running);
      Sound(env, next) && r.value < |next.manifests| && ManifestIs(env, next, r.value, b) && ManifestOf(next.manifests, run, 0) == Some(r.value)
      && run < |env.runs| && env.runs[run].stage == b.stage
  {
    FinalizeKeeps(env, st, run, b, running);
    var (next, r) := Finalize(env, st, run, b, running);
    if ManifestOf(st.manifests, run, 0).None? {
      assert next.manifests[r.value].run == run;
      OnlyManifest(next.manifests, run, r.value);
    }
  }

  lemma OnlyManifest(manifests: seq<Manifest>, run: nat, id: nat)
    requires OnePerRun(manifests) && id < |manifests| && manifests[id].run == run
    ensures ManifestOf(manifests, run, 0) == Some(id)
  {
    assert ManifestOf(manifests, run, 0).Some?;
  }

  // An accepted bundle is accepted again, with the same manifest and without change,
  // after anything else that is stored or finalized; another bundle of the run is
  // refused without change.
  lemma AcceptedForGood(env: Env, steps: seq<Step>, run: nat, b: Bundle, more: seq<Step>, running: bool, other: Bundle, later: bool)
    requires BundleOk(env, b) && BundleOk(env, other) && NoCollision(env, b, other)
    requires Finalize(env, After(env, EMPTY, steps), run, b, running).1.Ok?
    ensures var (next, r) := Finalize(env, After(env, EMPTY, steps), run, b, running);
      var t := After(env, next, more);
      Finalize(env, t, run, other, later) == (t, if other == b then r else Err(Integrity))
  {
    RunKeeps(env, EMPTY, steps);
    var st := After(env, EMPTY, steps);
    FinalizedIs(env, st, run, b, running);
    var (next, r) := Finalize(env, st, run, b, running);
    RunKeeps(env, next, more);
    var t := After(env, next, more);
    assert next.manifests <= t.manifests;
    OnlyManifest(t.manifests, run, r.value);
    BundleStays(env, next, t, r.value, b);
    if env.runs[run].stage == other.stage {
      OtherRefused(env, t, r.value, b, other);
    }
  }

  lemma OtherRefused(env: Env, st: Store, id: nat, b: Bundle, other: Bundle)
    requires id < |st.manifests| && ManifestIs(env, st, id, b) && BundleOk(env, b) && BundleOk(env, other) && NoCollision(env, b, other)
    ensures ManifestIs(env, st, id, other) <==> other == b
  {
    if ManifestIs(env, st, id, other) {
      var m := st.manifests[id];
      forall i | 0 <= i < |b.contents| ensures b.contents[i] == other.contents[i] {
        assert EntryIs(st, m.entries[i], b.contents[i]) && EntryIs(st, m.entries[i], other.contents[i]);
        assert ContentOk(env, b.contents[i]) && ContentOk(env, other.contents[i]);
      }
      assert b.contents == other.contents;
    }
  }

  // ---------- Reading back ----------

  // What was stored is read back, after anything else; up to a collision of the digest.
  lemma StoredIsReadBack(env: Env, steps: seq<Step>, data: Data, media: string, more: seq<Step>)
    requires StoreBytes(env, After(env, EMPTY, steps), data, media).1.Ok?
    ensures var (next, r) := StoreBytes(env, After(env, EMPTY, steps), data, media);
      var back := ReadBytes(env, After(env, next, more), r.value);
      r.value == env.sha(data) && back.Ok? && env.sha(back.value) == env.sha(data) && |back.value| == |data|
      && (Injective(env) ==> back == Ok(data))
  {
    RunKeeps(env, EMPTY, steps);
    var st := After(env, EMPTY, steps);
    StoreKeeps(env, st, data, media);
    RunKeeps(env, StoreBytes(env, st, data, media).0, more);
  }

  // A media type of more than 255 characters is cut when it is recorded and compared
  // whole: the same bytes under the same type are stored again exactly when it is not.
  lemma StoredAgainIff(env: Env, steps: seq<Step>, data: Data, media: string)
    requires StoreBytes(env, After(env, EMPTY, steps), data, media).1.Ok? && env.sha(data) !in After(env, EMPTY, steps).artifacts
    ensures var next := StoreBytes(env, After(env, EMPTY, steps), data, media).0;
      StoreBytes(env, next, data, media) == (next, if |media| <= MAX_MEDIA then Ok(env.sha(data)) else Err(Integrity))
  {
    RunKeeps(env, EMPTY, steps);
    StoreKeeps(env, After(env, EMPTY, steps), data, media);
  }

  // ---------- When a bundle can be finalized ----------

  ghost predicate Injective(env: Env) {
    forall x, y :: env.sha(x) == env.sha(y) ==> x == y
  }

  // No content is known under another media type, in the store or in the bundle itself.
  predicate MediaAgree(st: Store, contents: seq<Content>) {
    (forall i | 0 <= i < |contents| :: contents[i].id in st.artifacts ==> st.artifacts[contents[i].id].media == contents[i].media)
    && forall i, k | 0 <= i < k < |contents| :: contents[i].id == contents[k].id ==> contents[i].media == contents[k].media
  }

  lemma StoreOneIff(env: Env, st: Store, c: Content)
    requires Injective(env) && FilesSound(env, st) && ContentOk(env, c)
    ensures StoreBytes(env, st, c.data, c.media).1.Ok? <==> (c.id in st.artifacts ==> st.artifacts[c.id].media == c.media)
    ensures StoreBytes(env, st, c.data, c.media).1.Ok? ==>
      StoreBytes(env, st, c.data, c.media).0.artifacts == st.artifacts[c.id := Artifact(|c.data|, c.media)]
  {
  }

  lemma {:induction false} StoreAllIff(env: Env, st: Store, contents: seq<Content>)
    requires Injective(env) && FilesSound(env, st) && forall i | 0 <= i < |contents| :: ContentOk(env, contents[i])
    ensures StoreAll(env, st, contents).1 <==> MediaAgree(st, contents)
    decreases |contents|
  {
    if contents != [] {
      var c := contents[0];
      var (next, r) := StoreBytes(env, st, c.data, c.media);
      StoreOneIff(env, st, c);
      StoreBytesSound(env, st, c.data, c.media);
      if r.Ok? {
        StoreAllIff(env, next, contents[1..]);
        AgreeStep(st, next, contents);
      }
    }
  }

  lemma AgreeStep(st: Store, next: Store, contents: seq<Content>)
    requires contents != [] && (contents[0].id in st.artifacts ==> st.artifacts[contents[0].id].media == contents[0].media)
    requires next.artifacts == st.artifacts[contents[0].id := Artifact(|contents[0].data|, contents[0].media)]
    ensures MediaAgree(next, contents[1..]) <==> MediaAgree(st, contents)
  {
    if MediaAgree(next, contents[1..]) {
      forall i | 0 <= i < |contents| && contents[i].id in st.artifacts ensures st.artifacts[contents[i].id].media == contents[i].media {
        if i > 0 {
          assert contents[1..][i - 1] == contents[i];
        }
      }
      forall i, k | 0 <= i < k < |contents| && contents[i].id == contents[k].id ensures contents[i].media == contents[k].media {
        assert contents[1..][k - 1] == contents[k];
        if i > 0 {
          assert contents[1..][i - 1] == contents[i];
        }
      }
    }
  }

  // A bundle of a running stage that has no manifest yet is accepted exactly when none of
  // its contents is known under another media type: nothing else can fail, the
  // verification at the end included.
  lemma FinalizeAcceptsIff(env: Env, steps: seq<Step>, run: nat, b: Bundle)
    requires Injective(env) && BundleOk(env, b) && run < |env.runs| && env.runs[run].stage == b.stage
    requires ManifestOf(After(env, EMPTY, steps).manifests, run, 0).None?
    ensures Finalize(env, After(env, EMPTY, steps), run, b, true).1.Ok? <==> MediaAgree(After(env, EMPTY, steps), b.contents)
  {
    RunKeeps(env, EMPTY, steps);
    FinalizeIsStoring(env, After(env, EMPTY, steps), run, b);
    StoreAllIff(env, After(env, EMPTY, steps), b.contents);
  }

  // ---------- The store, as it is written ----------

  class ArtifactStore {
    const env: Env
    var st: Store

    constructor (env: Env)
      ensures this.env == env && st == EMPTY
    {
      this.env := env;
      st := EMPTY;
    }

    method Put(data: Data, media: string) returns (r: Result<string, ArtifactError>)
      modifies this
      ensures (st, r) == StoreBytes(env, old(st), data, media)
    {
      var digest := env.sha(data);
      if digest in st.files {
        if |st.files[digest]| != |data| || env.sha(st.files[digest]) != digest {
          return Err(Integrity);
        }
      } else {
        st := st.(files := st.files[digest := data]);
      }
      if digest in st.artifacts {
        var artifact := st.artifacts[digest];
        if artifact.size != |data| || artifact.media != media {
          return Err(Integrity);
        }
        return Ok(digest);
      }
      st := st.(artifacts := st.artifacts[digest := Artifact(|data|, Truncated(media))]);
      return Ok(digest);
    }

    method PutAll(contents: seq<Content>) returns (ok: bool)
      modifies this
      ensures (st, ok) == StoreAll(env, old(st), contents)
    {
      ghost var whole := StoreAll(env, st, contents);
      for i := 0 to |contents|
        invariant whole == StoreAll(env, st, contents[i..])
      {
        assert contents[i..][0] == contents[i] && contents[i..][1..] == contents[i + 1..];
        var r := Put(contents[i].data, contents[i].media);
        if r != Ok(contents[i].id) {
          return false;
        }
      }
      return true;
    }

    method FinalizeBundle(run: nat, b: Bundle, running: bool) returns (r: Result<nat, ArtifactError>)
      modifies this
      ensures (st, r) == Finalize(env, old(st), run, b, running)
    {
      if run >= |env.runs| {
        return Err(NotFound);
      }
      if env.runs[run].stage != b.stage {
        return Err(Integrity);
      }
      var existing := ManifestOf(st.manifests, run, 0);
      if existing.Some? {
        return if ManifestIs(env, st, existing.value, b) then Ok(existing.value) else Err(Integrity);
      }
      if !running {
        return Err(Integrity);
      }
      var before := st;
      var ok := PutAll(b.contents);
      if ok {
        var id := |st.manifests|;
        var files := st.files;
        st := WithManifest(env, st, run, b);
        if ManifestIs(env, st, id, b) {
          return Ok(id);
        }
        st := before.(files := files);
        return Err(Integrity);
      }
      st := before.(files := st.files);
      return Err(Integrity);
    }
  }
}
