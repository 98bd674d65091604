/**
 * The photo-avatar studio (frontend/src/pages/CreateYourselfPage.tsx). `startGeneration` asks the
 * backend to generate photos from the form, then polls the generation's status at most 90 times
 * until it succeeds (the photos and their keys are kept), fails, or the polls run out.
 * `saveAndContinue` turns the chosen photo into a HeyGen avatar group, records it in the backend
 * session and stores it as the context's avatar. The replies of the backend are inputs: the status
 * replies as a function from poll number to reply.
 */
module CreateYourself {
  import opened Wrappers
  import opened Text
  import opened Auth

  const MaxPolls: nat := 90
  const UnknownStatus: string := "unknown"
  const TimedOutMessage: string := "Timed out waiting for generation."
  const GenerationFailedMessage: string := "Generation failed."
  const MissingSelectionMessage: string := "Missing generation\\_id, selected image, or image\\_key."
  const MissingGroupIdMessage: string := "Missing group\\_id in create group response."
  const DefaultGroupName: string := "Gen1"
  const DefaultAvatarName: string := "My avatar"
  const MaxGroupName: nat := 64
  const TalkingPhoto: string := "talking_photo"

  // ---------------------------------------------------------------- the chosen photo

  /** `list.filter(Boolean)` on strings: drops the empty ones and keeps the order of the rest. */
  function Filtered(xs: seq<string>): (r: seq<string>)
    ensures |r| <= |xs|
    ensures forall i :: 0 <= i < |r| ==> r[i] != ""
    ensures forall x :: x in r <==> x in xs && x != ""
    ensures xs != [] && xs[0] != "" ==> r != [] && r[0] == xs[0]
    decreases |xs|
  {
    if xs == [] then []
    else if xs[0] == "" then Filtered(xs[1..])
    else [xs[0]] + Filtered(xs[1..])
  }

  /** Filtering a single value keeps it exactly when it is not empty. */
  lemma FilteredSingleton(x: string)
    ensures Filtered([x]) == if x == "" then [] else [x]
  {
    assert [x][1..] == [];
  }

  /**
   * Filtering works element by element and keeps the order: filtering a concatenation concatenates
   * the filtered parts, so with the singleton case the result is the non-empty values in their order.
   */
  lemma {:induction false} FilteredAppend(a: seq<string>, b: seq<string>)
    ensures Filtered(a + b) == Filtered(a) + Filtered(b)
    decreases |a|
  {
    if a == [] {
      assert a + b == b;
    } else {
      assert (a + b)[0] == a[0];
      assert (a + b)[1..] == a[1..] + b;
      FilteredAppend(a[1..], b);
    }
  }

  /** `urls[0] ?? null`. */
  function FirstOf(xs: seq<string>): Option<string> {
    if xs == [] then None else Some(xs[0])
  }

  /** `images.findIndex((u) => u === url)`, with `|images|` standing for -1. */
  function FirstIndex(images: seq<string>, url: string): (k: nat)
    ensures k <= |images|
    ensures forall j :: 0 <= j < k ==> images[j] != url
    ensures k < |images| ==> images[k] == url
    decreases |images|
  {
    if images == [] then 0
    else if images[0] == url then 0
    else 1 + FirstIndex(images[1..], url)
  }

  /** The `mainImage` memo: `selected ?? images[0] ?? null`. */
  function MainImage(selected: Option<string>, images: seq<string>): (r: Option<string>)
    ensures selected.Some? ==> r == selected
    ensures selected.None? ==> r == FirstOf(images)
  {
    if selected.Some? then selected else FirstOf(images)
  }

  /**
   * The `mainImageKey` memo: the key at the first position of the main image among the images; null
   * when there is no main image (or it is ""), it is not among the images, or the keys are too few.
   */
  function MainImageKey(mainImage: Option<string>, images: seq<string>, keys: seq<string>): (r: Option<string>)
    ensures r.Some? <==>
      Truthy(mainImage) && FirstIndex(images, mainImage.value) < |images| && FirstIndex(images, mainImage.value) < |keys|
    ensures r.Some? ==> mainImage.value in images && r.value == keys[FirstIndex(images, mainImage.value)]
  {
    if !Truthy(mainImage) then None
    else
      var idx := FirstIndex(images, mainImage.value);
      if idx == |images| || idx >= |keys| then None else Some(keys[idx])
  }

  // ---------------------------------------------------------------- the page state

  datatype GenState = GenState(
    generationId: Option<string>,
    status: Option<string>,
    statusMsg: Option<string>,
    images: seq<string>,
    imageKeys: seq<string>,
    selected: Option<string>,
    busyGenerate: bool,
    busySave: bool,
    err: Option<string>)

  const Initial: GenState := GenState(None, None, None, [], [], None, false, false, None)

  // ---------------------------------------------------------------- generation

  /** The generate request's outcome. */
  datatype GenerateReply =
    | Generated(generationId: string)
    | GenerateNotOk(code: string, statusText: string, body: string)
    | GenerateThrew(message: string)

  /** One status request's outcome; absent JSON keys are None. */
  datatype StatusReply =
    | StatusOk(status: Option<string>, msg: Option<string>, imageUrls: Option<seq<string>>, imageKeys: Option<seq<string>>)
    | StatusNotOk(code: string, statusText: string, body: string)
    | StatusThrew(message: string)

  predicate Succeeds(reply: StatusReply) {
    reply.StatusOk? && reply.status == Some("success")
  }

  /**
   * The reply ends the polling: success, reported failure, or an error. A success always ends it, and
   * a status reply without a status (shown as "unknown") never does.
   */
  predicate Decisive(reply: StatusReply)
    ensures Succeeds(reply) ==> Decisive(reply)
    ensures reply.StatusOk? && reply.status.None? ==> !Decisive(reply)
  {
    !reply.StatusOk? || reply.status == Some("success") || reply.status == Some("failed")
  }

  /** The error a decisive reply other than success leaves on the page. */
  function FailureMessage(reply: StatusReply): (m: string)
    ensures reply.StatusOk? ==> m == if reply.msg.Some? then reply.msg.value else GenerationFailedMessage
    ensures reply.StatusNotOk? ==> |m| >= 14 && m[..14] == "Status failed:"
    ensures reply.StatusNotOk? ==> m == HttpFailure("Status failed:", reply.code, reply.statusText, reply.body)
    ensures reply.StatusThrew? ==> m == reply.message
  {
    match reply
    case StatusOk(_, msg, _, _) => msg.GetOr(GenerationFailedMessage)
    case StatusNotOk(code, statusText, body) => HttpFailure("Status failed:", code, statusText, body)
    case StatusThrew(message) => message
  }

  /** The state hooks cleared before the generate request is sent. */
  function Reset(s: GenState): (r: GenState)
    ensures r.images == [] && r.imageKeys == [] && r.selected.None? && r.generationId.None?
    ensures r.status.None? && r.statusMsg.None? && r.err.None? && r.busyGenerate
    ensures r.busySave == s.busySave
  {
    s.(err := None, busyGenerate := true, images := [], imageKeys := [], selected := None,
       generationId := None, status := None, statusMsg := None)
  }

  /** The status shown after a reply that was read: its status, or "unknown", and its message. */
  function Shown(s: GenState, reply: StatusReply): GenState
    requires reply.StatusOk?
  {
    s.(status := Some(reply.status.GetOr(UnknownStatus)), statusMsg := reply.msg)
  }

  /** The outcome of a successful reply: the non-empty URLs and keys, the first URL selected. */
  function Succeeded(s: GenState, reply: StatusReply): GenState
    requires reply.StatusOk?
  {
    var urls := Filtered(reply.imageUrls.GetOr([]));
    Shown(s, reply).(images := urls, imageKeys := Filtered(reply.imageKeys.GetOr([])), selected := FirstOf(urls))
  }

  /** The state a decisive reply leaves: its error, or the success outcome. */
  function Settle(s: GenState, reply: StatusReply): (r: GenState)
    requires Decisive(reply)
    ensures r.generationId == s.generationId && r.busySave == s.busySave && r.busyGenerate == s.busyGenerate
    ensures Succeeds(reply) ==> r.err == s.err && r.selected == FirstOf(r.images)
    ensures Succeeds(reply) ==> r.images == Filtered(reply.imageUrls.GetOr([]))
    ensures !Succeeds(reply) ==> r.err == Some(FailureMessage(reply)) && r.images == s.images && r.selected == s.selected
  {
    if !reply.StatusOk? then s.(err := Some(FailureMessage(reply)))
    else if Succeeds(reply) then Succeeded(s, reply)
    else Shown(s, reply).(err := Some(FailureMessage(reply)))
  }

  /** The polling loop from poll `i` on, in the state `s` it has reached. */
  function PollFrom(s: GenState, poll: nat -> StatusReply, i: nat): (r: GenState)
    ensures r.generationId == s.generationId && r.busySave == s.busySave && r.busyGenerate == s.busyGenerate
    ensures r.err.Some? || r.status == Some("success")
    decreases MaxPolls - i
  {
    if i >= MaxPolls then s.(err := Some(TimedOutMessage))
    else if Decisive(poll(i)) then Settle(s, poll(i))
    else PollFrom(Shown(s, poll(i)), poll, i + 1)
  }

  /** `startGeneration` as a whole, with the token it reads. */
  function AfterGeneration(s: GenState, token: Option<string>, gen: GenerateReply, poll: nat -> StatusReply): (r: GenState)
    ensures !Truthy(token) ==> r == s
    ensures Truthy(token) ==> !r.busyGenerate && r.busySave == s.busySave
    ensures Truthy(token) ==> r.err.Some? || r.status == Some("success")
  {
    if !Truthy(token) then s
    else
      var r := Reset(s);
      var ended := match gen
        case GenerateNotOk(code, statusText, body) => r.(err := Some(HttpFailure("Generate failed:", code, statusText, body)))
        case GenerateThrew(message) => r.(err := Some(message))
        case Generated(id) => PollFrom(r.(generationId := Some(id)), poll, 0);
      ended.(busyGenerate := false)
  }

  /** The first poll at or after `i` that ends the loop, or MaxPolls when none of them does. */
  function FirstDecisive(poll: nat -> StatusReply, i: nat): (k: nat)
    ensures i <= MaxPolls ==> i <= k <= MaxPolls
    ensures forall j :: i <= j < k ==> !Decisive(poll(j))
    ensures k < MaxPolls ==> Decisive(poll(k))
    decreases MaxPolls - i
  {
    if i >= MaxPolls then MaxPolls
    else if Decisive(poll(i)) then i
    else FirstDecisive(poll, i + 1)
  }

  /**
   * The loop ends at the first decisive poll: a success keeps its photos, keys and first photo and
   * leaves no error; any other decisive reply leaves its error; with none in the 90 polls the page
   * reports a timeout. The generation id and the save flag are never touched.
   */
  lemma {:induction false} PollEndsAtFirstDecisive(s: GenState, poll: nat -> StatusReply, i: nat)
    requires i <= MaxPolls
    ensures var k := FirstDecisive(poll, i); var r := PollFrom(s, poll, i);
      && r.generationId == s.generationId && r.busySave == s.busySave && r.busyGenerate == s.busyGenerate
      && (k == MaxPolls ==> r.err == Some(TimedOutMessage) && r.images == s.images && r.selected == s.selected)
      && (k < MaxPolls && Succeeds(poll(k)) ==>
            && r.err == s.err && r.status == Some("success")
            && r.images == Filtered(poll(k).imageUrls.GetOr([]))
            && r.imageKeys == Filtered(poll(k).imageKeys.GetOr([]))
            && r.selected == FirstOf(r.images))
      && (k < MaxPolls && !Succeeds(poll(k)) ==>
            r.err == Some(FailureMessage(poll(k))) && r.images == s.images && r.selected == s.selected)
    decreases MaxPolls - i
  {
    if i < MaxPolls && !Decisive(poll(i)) {
      PollEndsAtFirstDecisive(Shown(s, poll(i)), poll, i + 1);
    }
  }

  /**
   * At most 90 polls, and none after the decisive one: two sequences of status replies that agree up
   * to the first decisive poll give the same outcome.
   */
  lemma {:induction false} PollReadsOnlyUpToDecisive(s: GenState, p: nat -> StatusReply, q: nat -> StatusReply, i: nat)
    requires i <= MaxPolls
    requires forall j :: i <= j <= FirstDecisive(p, i) && j < MaxPolls ==> p(j) == q(j)
    ensures FirstDecisive(p, i) == FirstDecisive(q, i)
    ensures PollFrom(s, p, i) == PollFrom(s, q, i)
    decreases MaxPolls - i
  {
    if i < MaxPolls && !Decisive(p(i)) {
      assert p(i) == q(i);
      PollReadsOnlyUpToDecisive(Shown(s, p(i)), p, q, i + 1);
    }
  }

  /**
   * Without a token nothing happens; with one, the previous photos, keys, selection, generation id
   * and status are cleared before anything else, so a failed generation leaves none of them behind.
   */
  lemma GenerationClearsPrevious(s: GenState, token: Option<string>, gen: GenerateReply, poll: nat -> StatusReply)
    ensures Truthy(token) && !gen.Generated? ==>
      var r := AfterGeneration(s, token, gen, poll);
      && r.images == [] && r.imageKeys == [] && r.selected.None? && r.generationId.None?
      && r.status.None? && r.statusMsg.None? && r.err.Some?
    ensures Truthy(token) && gen.Generated? ==> AfterGeneration(s, token, gen, poll).generationId == Some(gen.generationId)
  {
    if Truthy(token) && gen.Generated? {
      PollEndsAtFirstDecisive(Reset(s).(generationId := Some(gen.generationId)), poll, 0);
    }
  }

  /**
   * After a successful generation that returned at least one photo and one key, the main image is the
   * first photo and its key is the first key, so "Save and Continue" is enabled.
   */
  lemma SuccessSelectsFirstPhoto(s: GenState, token: Option<string>, id: string, poll: nat -> StatusReply)
    requires Truthy(token) && id != ""
    requires FirstDecisive(poll, 0) < MaxPolls && Succeeds(poll(FirstDecisive(poll, 0)))
    ensures var reply := poll(FirstDecisive(poll, 0));
      var urls := Filtered(reply.imageUrls.GetOr([]));
      var keys := Filtered(reply.imageKeys.GetOr([]));
      var r := AfterGeneration(s, token, Generated(id), poll);
      && r.err.None? && r.generationId == Some(id)
      && (urls != [] ==> MainImage(r.selected, r.images) == Some(urls[0]))
      && (urls != [] && keys != [] ==> MainImageKey(MainImage(r.selected, r.images), r.images, r.imageKeys) == Some(keys[0]))
      && (urls != [] && keys != [] ==> SaveReady(r))
  {
    PollEndsAtFirstDecisive(Reset(s).(generationId := Some(id)), poll, 0);
  }

  // ---------------------------------------------------------------- saving

  /** `(form.name || "Gen1").slice(0, 64)`. */
  function GroupName(formName: string): (r: string)
    ensures var full := if formName != "" then formName else DefaultGroupName;
      |r| == if |full| < MaxGroupName then |full| else MaxGroupName
    ensures var full := if formName != "" then formName else DefaultGroupName;
      r == full[..|r|]
    ensures r != ""
  {
    var full := if formName != "" then formName else DefaultGroupName;
    if |full| <= MaxGroupName then full else full[..MaxGroupName]
  }

  /** The three values `saveAndContinue` needs are all there. */
  predicate SaveReady(s: GenState) {
    var main := MainImage(s.selected, s.images);
    Truthy(s.generationId) && Truthy(main) && Truthy(MainImageKey(main, s.images, s.imageKeys))
  }

  datatype CreateGroupReply =
    | GroupCreated(groupId: Option<string>, id: Option<string>)
    | GroupNotOk(code: string, statusText: string, body: string)
    | GroupThrew(message: string)

  datatype SessionReply =
    | SessionSaved
    | SessionNotOk(code: string, statusText: string, body: string)
    | SessionThrew(message: string)

  /** The body of the create-group request. */
  datatype CreateGroupRequest = CreateGroupRequest(generationId: string, imageKey: string, name: string)

  /** The page state afterwards, the create-group request if one was sent, and the avatar stored. */
  datatype SaveResult = SaveResult(state: GenState, request: Option<CreateGroupRequest>, avatar: Option<ChosenAvatar>)

  /**
   * What `saveAndContinue` does once the create-group request is sent, from the page state `s`: the
   * page state and the avatar stored in the context, if any.
   */
  function GroupOutcome(s: GenState, main: Option<string>, formName: string, group: CreateGroupReply, session: SessionReply): (r: SaveResult)
    ensures r.request.None?
    ensures r.avatar.Some? <==> group.GroupCreated? && Truthy(Or(group.groupId, group.id)) && session.SessionSaved?
    ensures r.avatar.Some? ==> r.state == s && r.avatar.value.id == Or(group.groupId, group.id).value
    ensures r.avatar.None? ==> r.state == s.(err := r.state.err) && r.state.err.Some?
  {
    match group
    case GroupNotOk(code, statusText, body) =>
      SaveResult(s.(err := Some(HttpFailure("Create group failed:", code, statusText, body))), None, None)
    case GroupThrew(message) => SaveResult(s.(err := Some(message)), None, None)
    case GroupCreated(gid, id) =>
      var groupId := Or(gid, id);
      if !Truthy(groupId) then SaveResult(s.(err := Some(MissingGroupIdMessage)), None, None)
      else match session
        case SessionNotOk(code, statusText, body) =>
          SaveResult(s.(err := Some(HttpFailure("Save session failed:", code, statusText, body))), None, None)
        case SessionThrew(message) => SaveResult(s.(err := Some(message)), None, None)
        case SessionSaved =>
          var name := if formName != "" then formName else DefaultAvatarName;
          SaveResult(s, None, Some(ChosenAvatar(groupId.value, name, main, Some(TalkingPhoto))))
  }

  /** `saveAndContinue` as a whole, with the token it reads and the backend's replies. */
  function AfterSave(s: GenState, token: Option<string>, formName: string, group: CreateGroupReply, session: SessionReply): (r: SaveResult)
    ensures r.avatar.Some? ==> r.request.Some? && r.state.err.None?
    ensures r.request.Some? ==> !r.state.busySave
    ensures r.state.generationId == s.generationId && r.state.images == s.images && r.state.imageKeys == s.imageKeys
    ensures r.state.selected == s.selected && r.state.busyGenerate == s.busyGenerate
  {
    if !Truthy(token) then SaveResult(s, None, None)
    else if !SaveReady(s) then SaveResult(s.(err := Some(MissingSelectionMessage)), None, None)
    else
      var main := MainImage(s.selected, s.images);
      var key := MainImageKey(main, s.images, s.imageKeys);
      var request := Some(CreateGroupRequest(s.generationId.value, key.value, GroupName(formName)));
      var outcome := GroupOutcome(s.(err := None, busySave := true), main, formName, group, session);
      // `finally`
      SaveResult(outcome.state.(busySave := false), request, outcome.avatar)
  }

  /** Missing generation id, photo or key: the error is set and nothing is sent or stored. */
  lemma SaveGuards(s: GenState, token: Option<string>, formName: string, group: CreateGroupReply, session: SessionReply)
    ensures !Truthy(token) ==> AfterSave(s, token, formName, group, session) == SaveResult(s, None, None)
    ensures Truthy(token) && !SaveReady(s) ==>
      AfterSave(s, token, formName, group, session) == SaveResult(s.(err := Some(MissingSelectionMessage)), None, None)
    ensures AfterSave(s, token, formName, group, session).request.Some? <==> Truthy(token) && SaveReady(s)
  {
  }

  /**
   * A stored avatar is the created group: its id is `group_id`, or `id` when that is empty, its type
   * is a talking photo, its image is the main image, and its name is the form's name or "My avatar";
   * the group was requested with the main image's key and the truncated name, and no error remains.
   */
  lemma SavedAvatarIsTheGroup(s: GenState, token: Option<string>, formName: string, group: CreateGroupReply, session: SessionReply)
    requires AfterSave(s, token, formName, group, session).avatar.Some?
    ensures var r := AfterSave(s, token, formName, group, session);
      var main := MainImage(s.selected, s.images);
      && group.GroupCreated? && session.SessionSaved? && SaveReady(s)
      && r.avatar.value.id == Or(group.groupId, group.id).value && r.avatar.value.id != ""
      && r.avatar.value.avatarType == Some(TalkingPhoto)
      && r.avatar.value.imageUrl == main
      && r.avatar.value.name == (if formName != "" then formName else DefaultAvatarName)
      && r.request == Some(CreateGroupRequest(s.generationId.value, MainImageKey(main, s.images, s.imageKeys).value, GroupName(formName)))
      && r.state.err.None? && !r.state.busySave
  {
  }

  /** A group reply whose `group_id` and `id` are both missing or empty stores nothing. */
  lemma NoGroupIdNoAvatar(s: GenState, token: Option<string>, formName: string, gid: Option<string>, id: Option<string>, session: SessionReply)
    requires Truthy(token) && SaveReady(s) && !Truthy(gid) && !Truthy(id)
    ensures AfterSave(s, token, formName, GroupCreated(gid, id), session).avatar.None?
    ensures AfterSave(s, token, formName, GroupCreated(gid, id), session).state.err == Some(MissingGroupIdMessage)
  {
  }

  // ---------------------------------------------------------------- the component

  /** The component's state hooks. */
  class CreateYourselfPage {
    var generationId: Option<string>
    var status: Option<string>
    var statusMsg: Option<string>
    var images: seq<string>
    var imageKeys: seq<string>
    var selected: Option<string>
    var busyGenerate: bool
    var busySave: bool
    var err: Option<string>

    function State(): GenState
      reads this
    {
      GenState(generationId, status, statusMsg, images, imageKeys, selected, busyGenerate, busySave, err)
    }

    constructor ()
      ensures State() == Initial
    {
      generationId, status, statusMsg := None, None, None;
      images, imageKeys, selected := [], [], None;
      busyGenerate, busySave, err := false, false, None;
    }

    /** A click on one of the generated photos. */
    method SelectImage(url: string)
      modifies this
      ensures State() == old(State()).(selected := Some(url))
    {
      selected := Some(url);
    }

    /** One status reply read by the polling loop. */
    method ApplyStatus(reply: StatusReply)
      modifies this
      ensures Decisive(reply) ==> State() == Settle(old(State()), reply)
      ensures !Decisive(reply) ==> State() == Shown(old(State()), reply)
    {
      if !reply.StatusOk? {
        err := Some(FailureMessage(reply));
        return;
      }
      status := Some(reply.status.GetOr(UnknownStatus));
      statusMsg := reply.msg;
      if reply.status == Some("success") {
        var urls := Filtered(reply.imageUrls.GetOr([]));
        images := urls;
        imageKeys := Filtered(reply.imageKeys.GetOr([]));
        selected := FirstOf(urls);
      } else if reply.status == Some("failed") {
        err := Some(reply.msg.GetOr(GenerationFailedMessage));
      }
    }

    /**
     * The polling loop of `startGeneration`: up to 90 status requests, stopping at the first that
     * fails, reports success or reports failure.
     */
    method PollUntilDecided(poll: nat -> StatusReply)
      modifies this
      ensures State() == PollFrom(old(State()), poll, 0)
    {
      ghost var target := PollFrom(State(), poll, 0);
      var i := 0;
      var decided := false;
      while i < MaxPolls && !decided
        invariant i <= MaxPolls
        invariant !decided ==> PollFrom(State(), poll, i) == target
        invariant decided ==> State() == target
      {
        var reply := poll(i);
        ApplyStatus(reply);
        decided := Decisive(reply);
        i := i + 1;
      }
      if decided {
        return;
      }
      err := Some(TimedOutMessage);
    }

    /** `startGeneration`, with the generate reply and the status replies as inputs. */
    method StartGeneration(auth: AuthProvider, gen: GenerateReply, poll: nat -> StatusReply)
      modifies this
      ensures State() == AfterGeneration(old(State()), auth.token, gen, poll)
    {
      if auth.token.None? || auth.token.value == "" {
        return;
      }
      err := None;
      busyGenerate := true;
      images, imageKeys, selected := [], [], None;
      generationId, status, statusMsg := None, None, None;
      assert State() == Reset(old(State()));
      match gen {
        case GenerateNotOk(code, statusText, body) =>
          err := Some(HttpFailure("Generate failed:", code, statusText, body));
        case GenerateThrew(message) =>
          err := Some(message);
        case Generated(id) =>
          generationId := Some(id);
          ghost var before := State();
          assert before == Reset(old(State())).(generationId := Some(id));
          PollUntilDecided(poll);
          assert State() == PollFrom(before, poll, 0);
      }
      // `finally`
      busyGenerate := false;
    }

    /**
     * The replies to the create-group and session requests: on success the avatar is stored in the
     * context and the route to the voice picker is returned.
     */
    method ReceiveGroupReply(auth: AuthProvider, main: Option<string>, formName: string, group: CreateGroupReply, session: SessionReply)
      returns (route: Option<string>)
      modifies this, auth
      ensures var r := GroupOutcome(old(State()), main, formName, group, session);
        && State() == r.state
        && auth.avatar == (if r.avatar.Some? then r.avatar else old(auth.avatar))
        && (route.Some? <==> r.avatar.Some?)
        && (route.Some? ==> route.value == "/voices")
      ensures auth.token == old(auth.token) && auth.storage == old(auth.storage) && auth.voice == old(auth.voice)
    {
      route := None;
      match group {
        case GroupNotOk(code, statusText, body) =>
          err := Some(HttpFailure("Create group failed:", code, statusText, body));
        case GroupThrew(message) =>
          err := Some(message);
        case GroupCreated(gid, id) =>
          var groupId := Or(gid, id);
          if groupId.None? || groupId.value == "" {
            err := Some(MissingGroupIdMessage);
          } else {
            match session {
              case SessionNotOk(code, statusText, body) =>
                err := Some(HttpFailure("Save session failed:", code, statusText, body));
              case SessionThrew(message) =>
                err := Some(message);
              case SessionSaved =>
                var name := if formName != "" then formName else DefaultAvatarName;
                auth.SetAvatar(Some(ChosenAvatar(groupId.value, name, main, Some(TalkingPhoto))));
                route := Some("/voices");
            }
          }
      }
    }

    /**
     * `saveAndContinue`: sends `request` (when the guards pass) and, when the group is created and
     * recorded, stores the avatar in the context and returns the route to the voice picker.
     */
    method SaveAndContinue(auth: AuthProvider, formName: string, group: CreateGroupReply, session: SessionReply)
      returns (request: Option<CreateGroupRequest>, route: Option<string>)
      modifies this, auth
      ensures var r := AfterSave(old(State()), old(auth.token), formName, group, session);
        && State() == r.state
        && request == r.request
        && auth.avatar == (if r.avatar.Some? then r.avatar else old(auth.avatar))
        && (route.Some? <==> r.avatar.Some?)
        && (route.Some? ==> route.value == "/voices")
      ensures auth.token == old(auth.token) && auth.storage == old(auth.storage) && auth.voice == old(auth.voice)
    {
      request, route := None, None;
      if auth.token.None? || auth.token.value == "" {
        return;
      }
      var main := MainImage(selected, images);
      var key := MainImageKey(main, images, imageKeys);
      if generationId.None? || generationId.value == "" || main.None? || main.value == "" || key.None? || key.value == "" {
        err := Some(MissingSelectionMessage);
        return;
      }
      err := None;
      busySave := true;
      request := Some(CreateGroupRequest(generationId.value, key.value, GroupName(formName)));
      route := ReceiveGroupReply(auth, main, formName, group, session);
      // `finally`
      busySave := false;
    }
  }
}
