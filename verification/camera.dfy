/** The camera page around the advice engine: building the analysis record,
    queueing it in offline mode, and the upload size guard. The image itself,
    the device camera and the simulated delay are outside the model; the
    clock and the id stamp are parameters. */
module Camera {
  import opened Types
  import opened HealthAdvice
  import Offline

  /** Appended after the rule recommendations of every analysis. */
  const GeneralRecommendations: seq<string> :=
    ["Add vegetables to increase fiber content", "Drink plenty of water with meals"]

  const DishName := "Jollof Rice with Chicken"
  const MockConfidence: real := 0.92

  /** `user?.id || 'anonymous'`: no user, or a user with an empty id, scans
      as anonymous. */
  function ScanOwner(userId: Option<string>): (r: string)
    ensures r != ""
    ensures userId.Some? && userId.value != "" ==> r == userId.value
    ensures !(userId.Some? && userId.value != "") ==> r == "anonymous"
  {
    if userId.Some? && userId.value != "" then userId.value else "anonymous"
  }

  /** The analysis record for one profile and condition. */
  function BuildRecord(p: Profile, c: Condition, stamp: string, userId: Option<string>,
                       imageUrl: string, timestamp: string): (r: ScanRecord)
    ensures r.healthFlags == GenerateHealthAdvice(p, c).flags
    ensures |r.recommendations| == |GenerateHealthAdvice(p, c).recommendations| + 2
    ensures r.recommendations[..|r.recommendations| - 2] == GenerateHealthAdvice(p, c).recommendations
    ensures r.recommendations[|r.recommendations| - 2..] == GeneralRecommendations
    ensures r.nutrients == p && r.healthCondition == c && r.imageUrl == imageUrl
  {
    var advice := GenerateHealthAdvice(p, c);
    ScanRecord(
      "analysis_" + stamp, ScanOwner(userId), DishName, MockConfidence, imageUrl, p,
      advice.flags, advice.recommendations + GeneralRecommendations, c, timestamp)
  }

  datatype Analysis = Analysis(record: ScanRecord, offline: Offline.State)

  /** `analyzeImage`: analyses the fixed mock profile under the page's
      condition and queues the record only when offline mode is on. */
  function AnalyzeImage(s: Offline.State, c: Condition, stamp: string, userId: Option<string>,
                        imageData: string, timestamp: string): (a: Analysis)
    ensures a.record == BuildRecord(MockNutrients, c, stamp, userId, imageData, timestamp)
    ensures s.isOfflineMode ==> a.offline == Offline.AddPendingScan(s, a.record)
    ensures !s.isOfflineMode ==> a.offline == s
  {
    var record := BuildRecord(MockNutrients, c, stamp, userId, imageData, timestamp);
    Analysis(record, if s.isOfflineMode then Offline.AddPendingScan(s, record) else s)
  }

  /** The record is queued exactly when offline mode is on, and then it is
      the last queued scan. */
  lemma QueuedIffOfflineMode(s: Offline.State, c: Condition, stamp: string, userId: Option<string>,
                             imageData: string, timestamp: string)
    ensures var a := AnalyzeImage(s, c, stamp, userId, imageData, timestamp);
      (|a.offline.pending| == |s.pending| + 1 <==> s.isOfflineMode)
      && (s.isOfflineMode ==> a.offline.pending[|s.pending|] == a.record)
      && a.offline.pending[..|s.pending|] == s.pending
  {
  }

  /** Recommendations always end with the two general suggestions, and
      outside pregnancy the ones before them answer the yellow and red
      flags one for one. */
  lemma RecordRecommendations(p: Profile, c: Condition, stamp: string, userId: Option<string>,
                              imageUrl: string, timestamp: string)
    ensures var r := BuildRecord(p, c, stamp, userId, imageUrl, timestamp);
      |r.recommendations| >= 2
      && r.recommendations[|r.recommendations| - 1] == "Drink plenty of water with meals"
      && r.recommendations[|r.recommendations| - 2] == "Add vegetables to increase fiber content"
      && (c != PregnantNursing ==> |r.recommendations| == NonGreenCount(r.healthFlags) + 2)
  {
    if c != PregnantNursing {
      RecommendationsMatchWarnings(p, c);
    }
    var r := BuildRecord(p, c, stamp, userId, imageUrl, timestamp);
    assert r.recommendations[|r.recommendations| - 2..][1] == r.recommendations[|r.recommendations| - 1];
  }

  /** Uploads larger than 10 MiB are refused. */
  const MaxUploadBytes: nat := 10 * 1024 * 1024

  datatype File = File(size: nat, dataUrl: string)

  datatype UploadResult = UploadResult(capturedImage: Option<string>, alerted: bool)

  /** `handleFileUpload`: without a file nothing happens; an oversized file
      raises the alert and leaves the captured image; any other file becomes
      the captured image once read. */
  function HandleFileUpload(captured: Option<string>, file: Option<File>): (r: UploadResult)
    ensures r.alerted <==> file.Some? && file.value.size > MaxUploadBytes
    ensures r.capturedImage != captured ==> file.Some? && file.value.size <= MaxUploadBytes
  {
    match file
    case None => UploadResult(captured, false)
    case Some(f) =>
      if f.size > MaxUploadBytes then UploadResult(captured, true)
      else UploadResult(Some(f.dataUrl), false)
  }

  /** A file is accepted exactly when it is at most 10 MiB: 10485760 bytes
      load and 10485761 are refused. */
  lemma UploadGuard(captured: Option<string>, f: File)
    ensures f.size <= 10485760 ==> HandleFileUpload(captured, Some(f)) == UploadResult(Some(f.dataUrl), false)
    ensures f.size > 10485760 ==> HandleFileUpload(captured, Some(f)) == UploadResult(captured, true)
    ensures HandleFileUpload(captured, Some(File(10485760, f.dataUrl))).capturedImage == Some(f.dataUrl)
    ensures HandleFileUpload(captured, Some(File(10485761, f.dataUrl))).capturedImage == captured
  {
  }
}
