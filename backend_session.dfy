/**
 * The request-shaping endpoints of the backend (backend/app/main.py): login against the fixed user
 * table, the in-memory selection store keyed by bearer token, the `/chat` input check, the
 * `video_id` read from HeyGen's generate reply and the defaults of `/questions/{job_id}`.
 * Token signing and checking (JWT) is not modelled: a successful login yields the user name the
 * token would carry, and every endpoint is assumed to have passed `get_current_user`.
 */
module BackendSession {
  import opened Wrappers
  import opened Text

  /** An `HTTPException`: status code and detail. */
  datatype HttpError = HttpError(status: int, detail: string)

  /** FAKE_USERS_DB. */
  const FakeUsers: map<string, string> := map["Student" := "parola123"]

  /** `/auth/login`: Ok carries the subject the access token is issued for. */
  function Login(username: string, password: string): (r: Result<string, HttpError>)
    ensures r.Ok? <==> username in FakeUsers && FakeUsers[username] == password
    ensures r.Ok? ==> r.value == username
    ensures r.Err? ==> r.error == HttpError(401, "Invalid credentials.")
  {
    if username !in FakeUsers || FakeUsers[username] != password then Err(HttpError(401, "Invalid credentials."))
    else Ok(username)
  }

  /** Exactly one pair of credentials is accepted. */
  lemma OnlyStudentLogsIn(username: string, password: string)
    ensures Login(username, password).Ok? <==> username == "Student" && password == "parola123"
  {
  }

  // ---------------------------------------------------------------- selection store

  datatype AvatarSelection = AvatarSelection(id: string, name: string, imageUrl: string)
  datatype VoiceSelection = VoiceSelection(id: string, name: string)

  /** The stored `{"avatar": ..., "voice": ...}` record. */
  datatype Selection = Selection(avatar: AvatarSelection, voice: VoiceSelection)

  /** `GET /api/session/selection` against the store `byToken`. */
  function Lookup(byToken: map<string, Selection>, token: string): (r: Result<Selection, HttpError>)
    ensures r.Ok? <==> token in byToken
    ensures r.Ok? ==> r.value == byToken[token]
    ensures r.Err? ==> r.error == HttpError(404, "No selection stored.")
  {
    if token in byToken then Ok(byToken[token]) else Err(HttpError(404, "No selection stored."))
  }

  /** Reading back after a store: the stored selection for that token, as before for every other token. */
  lemma LookupAfterStore(byToken: map<string, Selection>, token: string, sel: Selection, other: string)
    ensures Lookup(byToken[token := sel], token) == Ok(sel)
    ensures other != token ==> Lookup(byToken[token := sel], other) == Lookup(byToken, other)
  {
  }

  /** `_SELECTION_BY_TOKEN` with its two endpoints. */
  class SelectionStore {
    var byToken: map<string, Selection>

    constructor ()
      ensures byToken == map[]
    {
      byToken := map[];
    }

    /** `POST /api/session/selection`: the selection replaces whatever the token had. */
    method SetSelection(token: string, payload: Selection) returns (ok: bool)
      modifies this
      ensures byToken == old(byToken)[token := payload]
      ensures ok
    {
      byToken := byToken[token := payload];
      ok := true;
    }

    /** `GET /api/session/selection`. */
    method GetSelection(token: string) returns (r: Result<Selection, HttpError>)
      ensures r.Ok? <==> token in byToken
      ensures r.Ok? ==> r.value == byToken[token]
      ensures r.Err? ==> r.error == HttpError(404, "No selection stored.")
      ensures r == Lookup(byToken, token)
    {
      if token !in byToken {
        return Err(HttpError(404, "No selection stored."));
      }
      r := Ok(byToken[token]);
    }
  }

  // ---------------------------------------------------------------- chat, video, status

  /** `/chat` before the model is asked: Ok carries the text sent to it. */
  function ValidateChat(text: Option<string>): (r: Result<string, HttpError>)
    ensures r.Err? <==> AllSpace(text.GetOr(""))
    ensures r.Ok? ==> r.value == Trim(text.GetOr("")) && r.value != ""
    ensures r.Ok? ==> !IsSpace(r.value[0]) && !IsSpace(r.value[|r.value| - 1])
    ensures r.Err? ==> r.error == HttpError(400, "Empty text.")
  {
    var t := Trim(text.GetOr(""));
    if t == "" then Err(HttpError(400, "Empty text.")) else Ok(t)
  }

  /** The `data` key of HeyGen's generate reply: absent, `null`, or an object with maybe a `video_id`. */
  datatype DataField = DataAbsent | DataNull | DataObject(videoId: Option<string>)

  datatype GenerateReply = GenerateReply(data: DataField, videoId: Option<string>)

  datatype VideoIdError =
    | DataNotAnObject   // `.get` on `None` raises before anything is checked
    | MissingVideoId

  /** `data.get("data", {}).get("video_id") or data.get("video_id")`, then the missing-id check. */
  function ExtractVideoId(reply: GenerateReply): (r: Result<string, VideoIdError>)
    ensures reply.data.DataNull? <==> r == Err(DataNotAnObject)
    ensures r.Ok? ==> r.value != ""
    ensures r.Ok? && reply.data.DataObject? && Truthy(reply.data.videoId) ==> r.value == reply.data.videoId.value
    ensures r.Ok? && !(reply.data.DataObject? && Truthy(reply.data.videoId)) ==> reply.videoId == Some(r.value)
    ensures r == Err(MissingVideoId) <==>
      !reply.data.DataNull? && !(reply.data.DataObject? && Truthy(reply.data.videoId)) && !Truthy(reply.videoId)
  {
    var id := match reply.data
      case DataNull => None
      case DataAbsent => reply.videoId
      case DataObject(nested) => Or(nested, reply.videoId);
    if reply.data.DataNull? then Err(DataNotAnObject)
    else if !Truthy(id) then Err(MissingVideoId)
    else Ok(id.value)
  }

  /** The `data` object of HeyGen's status reply; absent keys are `None`. */
  datatype StatusData = StatusData(status: Option<string>, videoUrl: Option<string>)

  /** The QuestionStatusResponse model. */
  datatype QuestionStatus = QuestionStatus(status: string, videoUrl: Option<string>)

  const UnknownStatus: string := "unknown"

  /** `/questions/{job_id}`: `data` absent reads as `{}`, and an absent status as "unknown". */
  function QuestionStatusOf(data: Option<StatusData>): (r: QuestionStatus)
    ensures data.None? ==> r == QuestionStatus(UnknownStatus, None)
    ensures data.Some? ==> r.videoUrl == data.value.videoUrl
    ensures data.Some? && data.value.status.Some? ==> r.status == data.value.status.value
    ensures data.Some? && data.value.status.None? ==> r.status == UnknownStatus
  {
    var d := data.GetOr(StatusData(None, None));
    QuestionStatus(d.status.GetOr(UnknownStatus), d.videoUrl)
  }
}
