/**
 * The client's configuration constants: the backend's base URL, the request
 * timeout, the default quality, the poll interval, the quality options a
 * generation request may name and the status tags a job reports.
 */
module ApiConfig {

  /** The base URL used when the build environment names none. */
  const DEFAULT_BASE_URL: string := "http://localhost:8000"

  /** Milliseconds before a transport call is aborted. */
  const TIMEOUT: nat := 300000

  const DEFAULT_QUALITY: string := "medium"

  /** Milliseconds between two status queries. */
  const POLL_INTERVAL: nat := 2000

  const QUALITY_LOW: string := "low"
  const QUALITY_MEDIUM: string := "medium"
  const QUALITY_HIGH: string := "high"

  /** `Object.values(QUALITY_OPTIONS)`, in declaration order. */
  const QUALITY_OPTIONS: seq<string> := [QUALITY_LOW, QUALITY_MEDIUM, QUALITY_HIGH]

  const STATUS_GENERATING: string := "generating"
  const STATUS_READY: string := "ready"
  const STATUS_NOT_FOUND: string := "not_found"
  const STATUS_ERROR: string := "error"

  /** `Object.values(VIDEO_STATUS)`, in declaration order. */
  const VIDEO_STATUS: seq<string> := [STATUS_GENERATING, STATUS_READY, STATUS_NOT_FOUND, STATUS_ERROR]

  /**
   * `BASE_URL`: the build variable `VITE_API_URL` when it is set to a
   * non-empty string (`env`; the empty string stands for unset), the local
   * default otherwise. Either way the base URL is never empty.
   */
  function BaseUrl(env: string): (url: string)
    ensures url != ""
    ensures url == env || url == DEFAULT_BASE_URL
    ensures env != "" ==> url == env
  {
    if env != "" then env else DEFAULT_BASE_URL
  }

  /** The three quality options are pairwise distinct and are the only ones. */
  lemma QualityOptionsExact()
    ensures |QUALITY_OPTIONS| == 3
    ensures forall i, j :: 0 <= i < j < |QUALITY_OPTIONS| ==> QUALITY_OPTIONS[i] != QUALITY_OPTIONS[j]
    ensures forall q :: q in QUALITY_OPTIONS <==> q == "low" || q == "medium" || q == "high"
  {
  }

  /**
   * The configured default quality, and the `QUALITY_OPTIONS.MEDIUM` that
   * the generation call defaults to, is itself an accepted option.
   */
  lemma DefaultQualityIsOption()
    ensures DEFAULT_QUALITY == QUALITY_MEDIUM
    ensures DEFAULT_QUALITY in QUALITY_OPTIONS
  {
  }

  /** The four status tags are pairwise distinct. */
  lemma VideoStatusDistinct()
    ensures |VIDEO_STATUS| == 4
    ensures forall i, j :: 0 <= i < j < |VIDEO_STATUS| ==> VIDEO_STATUS[i] != VIDEO_STATUS[j]
  {
  }

  /** Both delays are positive and the poll interval is shorter than the timeout. */
  lemma TimingConstants()
    ensures 0 < POLL_INTERVAL < TIMEOUT
  {
  }
}
