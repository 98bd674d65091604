/**
 * The recorded-question video chat page (frontend/src/pages/ChatPage.tsx): the redirect guard that
 * sends an incomplete session back to the missing step, the avatar's first name shown in the header,
 * and `handleGenerate`, which uploads the recording and then polls the job status every five seconds
 * until a video arrives, the job ends badly or a poll throws. Each interval tick is one call of
 * `PollTick`; the upload's reply is an input.
 */
module VideoChat {
  import opened Wrappers
  import opened Text
  import opened Auth
  import BackendSession

  /** The route the guard navigates to, or None when the page may render. */
  function Redirect(token: Option<string>, avatar: Option<ChosenAvatar>, voice: Option<ChosenVoice>): (r: Option<string>)
    ensures r == Some("/login") <==> !Truthy(token)
    ensures r == Some("/avatars") <==> Truthy(token) && avatar.None?
    ensures r == Some("/voices") <==> Truthy(token) && avatar.Some? && voice.None?
    ensures r.None? <==> Truthy(token) && avatar.Some? && voice.Some?
  {
    if !Truthy(token) then Some("/login")
    else if avatar.None? then Some("/avatars")
    else if voice.None? then Some("/voices")
    else None
  }

  /** The guard reads the context as it is: a token set to "" sends the user back to login. */
  lemma EmptyTokenRedirectsToLogin(s: AuthState, t: Option<string>)
    requires !Truthy(t)
    ensures Redirect(AfterSetToken(s, t).token, s.avatar, s.voice) == Some("/login")
  {
  }

  /**
   * `getFirstName`: "" for a blank name; otherwise the first run of non-whitespace characters of the
   * trimmed name, which is never empty and is followed by whitespace unless it is the whole name.
   */
  function GetFirstName(fullName: string): (r: string)
    ensures AllSpace(fullName) ==> r == ""
    ensures !AllSpace(fullName) ==> r != [] && NoSpace(r)
    ensures |r| <= |Trim(fullName)| && r == Trim(fullName)[..|r|]
    ensures |r| < |Trim(fullName)| ==> IsSpace(Trim(fullName)[|r|])
  {
    var trimmed := Trim(fullName);
    if trimmed == "" then "" else Word(trimmed)
  }

  /** A status request's outcome: the job's status and video URL, or a thrown call. */
  datatype JobStatusReply = JobStatus(status: string, videoUrl: Option<string>) | StatusCallThrew

  /** What the interval callback decides. */
  datatype PollDecision = KeepPolling | StopWithVideo(url: string) | StopWithoutVideo

  const TerminalStatuses: seq<string> := ["failed", "error", "canceled"]

  function Decide(reply: JobStatusReply): (r: PollDecision)
    ensures r.StopWithVideo? <==> reply.JobStatus? && reply.status == "completed" && Truthy(reply.videoUrl)
    ensures r.StopWithVideo? ==> r.url == reply.videoUrl.value
    ensures r == StopWithoutVideo <==>
      reply.StatusCallThrew? ||
      (!(reply.status == "completed" && Truthy(reply.videoUrl)) && Lower(reply.status) in TerminalStatuses)
  {
    match reply
    case StatusCallThrew => StopWithoutVideo
    case JobStatus(status, videoUrl) =>
      if status == "completed" && Truthy(videoUrl) then StopWithVideo(videoUrl.value)
      else if Lower(status) in TerminalStatuses then StopWithoutVideo
      else KeepPolling
  }

  /** "completed" without a video URL, and any other case of "completed", keep the poll going. */
  lemma CompletedNeedsUrl(url: Option<string>)
    ensures !Truthy(url) ==> Decide(JobStatus("completed", url)) == KeepPolling
    ensures Decide(JobStatus("Completed", url)) == KeepPolling
  {
    assert Lower("completed") == "completed";
    assert Lower("Completed") == "completed";
  }

  /**
   * Only the completion check is case-sensitive: any casing of a terminal status stops the poll,
   * and two statuses other than "completed" that lower-case alike get the same decision, whatever
   * video URLs come with them.
   */
  lemma TerminalIgnoresCase(s: string, t: string, u: Option<string>, v: Option<string>)
    ensures Lower(s) in TerminalStatuses ==> Decide(JobStatus(s, u)) == StopWithoutVideo
    ensures Lower(s) == Lower(t) && s != "completed" && t != "completed" ==>
      Decide(JobStatus(s, u)) == Decide(JobStatus(t, v))
  {
    assert Lower("completed") == "completed";
  }

  /** The backend's "unknown" default for a status reply without `data` keeps the page polling. */
  lemma MissingStatusKeepsPolling()
    ensures var q := BackendSession.QuestionStatusOf(None); Decide(JobStatus(q.status, q.videoUrl)) == KeepPolling
  {
    assert Lower("unknown") == "unknown";
  }

  const NoRecording: string := "Nu există înregistrare audio."
  const Sending: string := "Trimit întrebarea la server..."
  const Waiting: string := "Întrebarea a fost trimisă. Aștept să fie generat video-ul..."
  const UploadFailed: string := "Eroare la trimiterea întrebării."

  /** The status line, the video and whether the interval is still set. */
  datatype PollState = PollState(status: string, videoUrl: Option<string>, polling: bool)

  /** One interval tick: the status line shows the reply's status, then the decision applies. */
  function Tick(s: PollState, reply: JobStatusReply): (r: PollState)
    ensures r.polling <==> s.polling && Decide(reply) == KeepPolling
    ensures r.videoUrl == if Decide(reply).StopWithVideo? then Some(Decide(reply).url) else s.videoUrl
    ensures reply.JobStatus? ==> r.status == "Status: " + reply.status
    ensures reply.StatusCallThrew? ==> r.status == s.status
  {
    var shown := if reply.JobStatus? then s.(status := "Status: " + reply.status) else s;
    match Decide(reply)
    case KeepPolling => shown
    case StopWithVideo(url) => shown.(videoUrl := Some(url), polling := false)
    case StopWithoutVideo => shown.(polling := false)
  }

  /** The ticks of one interval: once it is cleared no callback runs again. */
  function Ticks(s: PollState, replies: seq<JobStatusReply>): PollState
    decreases |replies|
  {
    if replies == [] || !s.polling then s else Ticks(Tick(s, replies[0]), replies[1..])
  }

  /** Every reply in `replies` asks to go on. */
  predicate AllKeepPolling(replies: seq<JobStatusReply>) {
    forall i :: 0 <= i < |replies| ==> Decide(replies[i]) == KeepPolling
  }

  /** While every reply says to keep going, the interval stays set and the video is untouched. */
  lemma {:induction false} PollingContinues(s: PollState, replies: seq<JobStatusReply>)
    requires AllKeepPolling(replies)
    ensures Ticks(s, replies).polling == s.polling
    ensures Ticks(s, replies).videoUrl == s.videoUrl
    decreases |replies|
  {
    if replies != [] && s.polling {
      PollingContinues(Tick(s, replies[0]), replies[1..]);
    }
  }

  /**
   * The interval stops at the first reply that is not KeepPolling: the video is set exactly when that
   * reply is a completed job with a URL, and whatever replies would follow it are never looked at.
   */
  lemma {:induction false} PollingStopsAtFirstDecision(s: PollState, replies: seq<JobStatusReply>, k: nat, later: seq<JobStatusReply>)
    requires s.polling && k < |replies|
    requires AllKeepPolling(replies[..k]) && Decide(replies[k]) != KeepPolling
    ensures !Ticks(s, replies).polling
    ensures Ticks(s, replies).videoUrl == if Decide(replies[k]).StopWithVideo? then Some(Decide(replies[k]).url) else s.videoUrl
    ensures Ticks(s, replies[..k + 1] + later) == Ticks(s, replies)
    decreases k
  {
    var extended := replies[..k + 1] + later;
    assert extended[0] == replies[0];
    if k > 0 {
      assert Decide(replies[..k][0]) == KeepPolling;
      assert replies[1..][..k - 1] == replies[..k][1..];
      assert extended[1..] == replies[1..][..k] + later;
      PollingStopsAtFirstDecision(Tick(s, replies[0]), replies[1..], k - 1, later);
    }
  }

  /** The page's hooks that `handleGenerate` touches. */
  class ChatPage {
    var hasRecording: bool
    var status: string
    var videoUrl: Option<string>
    var polling: bool

    function State(): PollState
      reads this
    {
      PollState(status, videoUrl, polling)
    }

    constructor (hasRecording: bool)
      ensures this.hasRecording == hasRecording && State() == PollState("", None, false)
    {
      this.hasRecording := hasRecording;
      status, videoUrl, polling := "", None, false;
    }

    /** `handleGenerate` up to the upload; `upload` says whether the question is sent. */
    method HandleGenerate() returns (upload: bool)
      modifies this
      ensures upload == old(hasRecording)
      ensures !upload ==> State() == old(State()).(status := NoRecording)
      ensures upload ==> State() == old(State()).(status := Sending)
      ensures hasRecording == old(hasRecording)
    {
      if !hasRecording {
        status := NoRecording;
        return false;
      }
      status := Sending;
      upload := true;
    }

    /** The upload's outcome: on success the interval starts, on failure the page says so. */
    method UploadFinished(ok: bool)
      modifies this
      ensures ok ==> State() == old(State()).(status := Waiting, polling := true)
      ensures !ok ==> State() == old(State()).(status := UploadFailed)
      ensures hasRecording == old(hasRecording)
    {
      if ok {
        status := Waiting;
        polling := true;
      } else {
        status := UploadFailed;
      }
    }

    /** One interval callback, which only runs while the interval is set. */
    method PollTick(reply: JobStatusReply)
      requires polling
      modifies this
      ensures State() == Tick(old(State()), reply)
      ensures hasRecording == old(hasRecording)
    {
      if reply.StatusCallThrew? {
        polling := false;
        return;
      }
      status := "Status: " + reply.status;
      if reply.status == "completed" && reply.videoUrl.Some? && reply.videoUrl.value != "" {
        videoUrl := reply.videoUrl;
        polling := false;
      } else if Lower(reply.status) in TerminalStatuses {
        polling := false;
      }
    }
  }
}
