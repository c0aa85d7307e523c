/** The segment-selection decisions of the clipping pipeline: whether a real language-model
    key is configured, the stub that picks segments by transcript length, and the dispatch
    between the model's answer and the stub. */
module Clipper {
  import opened Wrappers
  import opened Strings

  /** One transcribed segment; its times are copied, never computed with. */
  datatype Segment = Segment(start: real, end: real, text: string)

  /** A time range chosen as a "conversation". */
  datatype Conversation = Conversation(start: real, end: real)

  /** The key used when the environment does not set one. */
  const DefaultGroqKey: string := "groq-key"

  /** `Config.GROQ_API_KEY`: the environment's value, or the placeholder default. */
  function GroqKeyFromEnv(env: map<string, string>): (key: string)
    ensures "GROQ_API_KEY" in env ==> key == env["GROQ_API_KEY"]
    ensures "GROQ_API_KEY" !in env ==> key == DefaultGroqKey
  {
    if "GROQ_API_KEY" in env then env["GROQ_API_KEY"] else DefaultGroqKey
  }

  /** `Config.is_api_configured`, as the truth value its callers test: the empty key, the
      default key and any key starting with `placeholder` count as not configured, and
      every other key as a real one. */
  function IsApiConfigured(key: string): (r: bool)
    ensures key == "" || key == DefaultGroqKey ==> !r
    ensures StartsWith(key, "placeholder") ==> !r
    ensures !r ==> key == "" || key == DefaultGroqKey || StartsWith(key, "placeholder")
  {
    key != "" && key != DefaultGroqKey && !StartsWith(key, "placeholder")
  }

  /** Without a key in the environment the API counts as not configured. */
  lemma UnsetKeyIsNotConfigured(env: map<string, string>)
    requires "GROQ_API_KEY" !in env
    ensures !IsApiConfigured(GroqKeyFromEnv(env))
  {
  }

  /** `get_relevant_segments_stubbed`: the first three segments as one conversation, and the
      next three as a second one, when the transcript is long enough. */
  function StubbedSegments(transcript: seq<Segment>, userQuery: string): (r: seq<Conversation>)
    ensures |r| <= 2
    ensures |transcript| < 3 <==> r == []
    ensures |transcript| >= 3 ==> r[0] == Conversation(transcript[0].start, transcript[2].end)
    ensures |transcript| >= 6 <==> |r| == 2
    ensures |transcript| >= 6 ==> r[1] == Conversation(transcript[3].start, transcript[5].end)
  {
    if |transcript| > 0 then
      var first := if |transcript| >= 3 then [Conversation(transcript[0].start, transcript[2].end)] else [];
      var second := if |transcript| >= 6 then [Conversation(transcript[3].start, transcript[5].end)] else [];
      first + second
    else
      []
  }

  /** The stub reads the transcript only, never the query. */
  lemma StubIgnoresQuery(transcript: seq<Segment>, q1: string, q2: string)
    ensures StubbedSegments(transcript, q1) == StubbedSegments(transcript, q2)
  {
  }

  /** `get_relevant_segments`: the stub when no real key is configured; otherwise the
      conversations the model returned, or the stub again when the request or the parsing of
      its answer failed (`modelAnswer` is None). */
  function RelevantSegments(key: string, transcript: seq<Segment>, userQuery: string,
                            modelAnswer: Option<seq<Conversation>>): (r: seq<Conversation>)
    ensures !IsApiConfigured(key) ==> r == StubbedSegments(transcript, userQuery)
    ensures IsApiConfigured(key) && modelAnswer.Some? ==> r == modelAnswer.value
    ensures modelAnswer.None? ==> r == StubbedSegments(transcript, userQuery)
  {
    if !IsApiConfigured(key) then StubbedSegments(transcript, userQuery)
    else match modelAnswer
      case Some(conversations) => conversations
      case None => StubbedSegments(transcript, userQuery)
  }

  /** Without a configured key the model's answer is never consulted. */
  lemma UnconfiguredIgnoresModel(key: string, transcript: seq<Segment>, userQuery: string,
                                 a1: Option<seq<Conversation>>, a2: Option<seq<Conversation>>)
    requires !IsApiConfigured(key)
    ensures RelevantSegments(key, transcript, userQuery, a1) == RelevantSegments(key, transcript, userQuery, a2)
  {
  }
}
