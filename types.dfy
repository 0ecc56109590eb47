/** The shapes shared by the service and the UI. */
module Types {
  import opened Wrappers

  /** The pipeline's observable progress. */
  datatype AppState = Idle | AnalyzingImage | FetchingInfo | GeneratingAudio | Ready | Error

  /** A web citation that grounds the history text. */
  datatype GroundingSource = GroundingSource(uri: string, title: string)

  /** What a completed run presents. `audioBase64` is nullable in the type,
      though every run that completes fills it. */
  datatype AnalysisResult = AnalysisResult(
    landmarkName: string,
    historyText: string,
    audioBase64: Option<string>,
    sources: seq<GroundingSource>)
}
