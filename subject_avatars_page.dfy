/**
 * The subject preset page (frontend/src/pages/SubjectAvatarsPage.tsx, the live code from line 626):
 * four presets, each naming a HeyGen avatar group, an avatar in it and a voice. On mount the page
 * asks the backend for each preset's group listing and keeps a preview (image and name) per preset;
 * picking a preset stores the avatar and voice in the auth context and opens the chat.
 */
module SubjectAvatars {
  import opened Wrappers
  import opened Text
  import opened HeygenJson
  import opened Auth
  import Catalogue

  datatype Preset = Preset(
    key: string,
    avatarGroupId: string,
    avatarId: string,
    avatarName: string,
    voiceId: string,
    voiceName: string)

  /** PRESETS, without the titles and descriptions, which only the rendering reads. */
  const Presets: seq<Preset> := [
    Preset("informatica", "d08c85e6cff84d78b6dc41d83a2eccce", "Brandon_Office_Sitting_Front_public",
           "Brandon Office Sitting Front", "3787b4ab93174952a3ad649209f1029a", "Brandon"),
    Preset("geografie", "1727672614", "Georgia_sitting_office_front",
           "Georgia Sitting Office Front", "da6a3889803f4ef29db3b9cdd7ec7135", "Georgia"),
    Preset("mate", "977b1ab85dba4eefb159a6072677effd", "Caroline_Business_Sitting_Side_public",
           "Caroline Business Sitting Side", "da6a3889803f4ef29db3b9cdd7ec7135", "Georgia"),
    Preset("engleza", "977b1ab85dba4eefb159a6072677effd", "Caroline_Lobby_Standing_Side_public",
           "Caroline Lobby Standing Side", "da6a3889803f4ef29db3b9cdd7ec7135", "Georgia")]

  predicate DistinctKeys(ps: seq<Preset>) {
    forall i, j :: 0 <= i < j < |ps| ==> ps[i].key != ps[j].key
  }

  lemma PresetKeysDistinct()
    ensures DistinctKeys(Presets)
  {
  }

  // ---------------------------------------------------------------- one preview

  /** `data?.avatar_list ?? data?.avatars ?? []`: only a missing list falls through, not an empty one. */
  function ChooseList(data: Option<GroupData>): (r: seq<GroupItem>)
    ensures data.None? ==> r == []
    ensures data.Some? && data.value.avatarList.Some? ==> r == data.value.avatarList.value
    ensures data.Some? && data.value.avatarList.None? ==> r == data.value.avatars.GetOr([])
  {
    if data.None? then []
    else if data.value.avatarList.Some? then data.value.avatarList.value
    else if data.value.avatars.Some? then data.value.avatars.value
    else []
  }

  /** Whenever the page finds items to search, they are the items the backend would read. */
  lemma ListChoiceAgreesWithBackend(body: GroupResponse)
    requires ChooseList(body.data) != []
    ensures ChooseList(body.data) == Catalogue.GroupItems(body)
  {
  }

  /**
   * The converse fails: an empty `avatar_list` next to a non-empty `avatars` hides the avatars from
   * the page (`??`), while the backend reads them (`or`).
   */
  lemma EmptyAvatarListShadowsAvatars(items: seq<GroupItem>)
    requires items != []
    ensures ChooseList(Some(GroupData(Some([]), Some(items)))) == []
    ensures Catalogue.GroupItems(GroupResponse(Some(GroupData(Some([]), Some(items))))) == items
  {
  }

  predicate HasId(item: GroupItem, avatarId: string) {
    item.avatarId == Some(avatarId)
  }

  /** The index `list.find` stops at: the first item with the id, or `|list|` when there is none. */
  function FindIndex(list: seq<GroupItem>, avatarId: string): (k: nat)
    ensures k <= |list|
    ensures forall j :: 0 <= j < k ==> !HasId(list[j], avatarId)
    ensures k < |list| ==> HasId(list[k], avatarId)
    decreases |list|
  {
    if list == [] then 0
    else if HasId(list[0], avatarId) then 0
    else 1 + FindIndex(list[1..], avatarId)
  }

  /** The preview `fetchAvatarPreviewFromGroup` returns. */
  datatype Preview = Preview(imageUrl: string, resolvedName: string)

  /**
   * `fetchAvatarPreviewFromGroup` once the request has been answered: null for a reply that is not
   * OK or a list without the avatar; otherwise the first matching item's trimmed preview image and
   * its name, falling back to the avatar id only when the name is missing.
   */
  function FetchAvatarPreview(reply: Catalogue.GroupFetch, avatarId: string): (r: Option<Preview>)
    ensures reply.GroupFailed? ==> r.None?
    ensures reply.GroupFetched? ==>
      var list := ChooseList(reply.body.data);
      && (r.None? <==> forall j :: 0 <= j < |list| ==> !HasId(list[j], avatarId))
      && (r.Some? ==>
          var k := FindIndex(list, avatarId);
          && r.value.imageUrl == Trim(list[k].previewImageUrl.GetOr(""))
          && r.value.resolvedName == list[k].avatarName.GetOr(avatarId))
  {
    match reply
    case GroupFailed => None
    case GroupFetched(body) =>
      var list := ChooseList(body.data);
      var k := FindIndex(list, avatarId);
      if k == |list| then None
      else Some(Preview(Trim(list[k].previewImageUrl.GetOr("")), list[k].avatarName.GetOr(avatarId)))
  }

  // ---------------------------------------------------------------- the previews of all presets

  /** One value of `previewByKey`. */
  datatype PreviewEntry = PreviewEntry(imageUrl: string, name: string)

  /** `{ imageUrl: preview?.imageUrl ?? "", name: preview?.resolvedName ?? fallbackName }`. */
  function EntryFor(preview: Option<Preview>, fallbackName: string): (e: PreviewEntry)
    ensures preview.None? ==> e == PreviewEntry("", fallbackName)
    ensures preview.Some? ==> e.imageUrl == preview.value.imageUrl && e.name == preview.value.resolvedName
  {
    match preview
    case None => PreviewEntry("", fallbackName)
    case Some(p) => PreviewEntry(p.imageUrl, p.resolvedName)
  }

  /** A preview request either settles with a reply or throws (network failure, unreadable body). */
  datatype PreviewFetch = PreviewThrew | PreviewAnswered(reply: Catalogue.GroupFetch)

  /** The entry of one preset, given the outcome of its request. */
  function PresetEntry(p: Preset, fetched: Catalogue.GroupFetch): PreviewEntry {
    EntryFor(FetchAvatarPreview(fetched, p.avatarId), p.avatarName)
  }

  predicate AnyThrew(ps: seq<Preset>, fetch: string -> PreviewFetch) {
    exists i :: 0 <= i < |ps| && fetch(ps[i].avatarGroupId).PreviewThrew?
  }

  /**
   * `Object.fromEntries(await Promise.all(...))`: None when any request throws (Promise.all
   * rejects), else one entry per preset.
   */
  function Entries(ps: seq<Preset>, fetch: string -> PreviewFetch): (r: Option<map<string, PreviewEntry>>)
    ensures r.Some? ==> forall i :: 0 <= i < |ps| ==> ps[i].key in r.value
    decreases |ps|
  {
    if ps == [] then Some(map[])
    else
      var p := ps[|ps| - 1];
      var rest := Entries(ps[..|ps| - 1], fetch);
      match fetch(p.avatarGroupId)
      case PreviewThrew => None
      case PreviewAnswered(reply) =>
        if rest.None? then None else Some(rest.value[p.key := PresetEntry(p, reply)])
  }

  function KeysOf(ps: seq<Preset>): set<string> {
    set i | 0 <= i < |ps| :: ps[i].key
  }

  /** The entries exist exactly when no request threw. */
  lemma {:induction false} EntriesUnlessThrown(ps: seq<Preset>, fetch: string -> PreviewFetch)
    ensures Entries(ps, fetch).Some? <==> !AnyThrew(ps, fetch)
    decreases |ps|
  {
    if ps != [] {
      var init := ps[..|ps| - 1];
      EntriesUnlessThrown(init, fetch);
      if AnyThrew(init, fetch) {
        var i :| 0 <= i < |init| && fetch(init[i].avatarGroupId).PreviewThrew?;
        assert ps[i] == init[i];
      }
      if AnyThrew(ps, fetch) && fetch(ps[|ps| - 1].avatarGroupId).PreviewAnswered? {
        var i :| 0 <= i < |ps| && fetch(ps[i].avatarGroupId).PreviewThrew?;
        assert init[i] == ps[i];
      }
    }
  }

  /** When they exist, every preset and nothing else has a key. */
  lemma {:induction false} EntriesKeys(ps: seq<Preset>, fetch: string -> PreviewFetch)
    requires Entries(ps, fetch).Some?
    ensures Entries(ps, fetch).value.Keys == KeysOf(ps)
    decreases |ps|
  {
    if ps != [] {
      var init := ps[..|ps| - 1];
      EntriesKeys(init, fetch);
      forall key | key in KeysOf(ps)
        ensures key in KeysOf(init) + {ps[|ps| - 1].key}
      {
        var i :| 0 <= i < |ps| && ps[i].key == key;
        if i < |init| {
          assert init[i] == ps[i];
        }
      }
      forall key | key in KeysOf(init)
        ensures key in KeysOf(ps)
      {
        var i :| 0 <= i < |init| && init[i].key == key;
        assert ps[i] == init[i];
      }
    }
  }

  /** With distinct keys, each preset's entry comes from its own group's reply. */
  lemma {:induction false} EntriesValues(ps: seq<Preset>, fetch: string -> PreviewFetch, i: nat)
    requires DistinctKeys(ps) && Entries(ps, fetch).Some? && i < |ps|
    ensures fetch(ps[i].avatarGroupId).PreviewAnswered?
    ensures ps[i].key in Entries(ps, fetch).value
    ensures Entries(ps, fetch).value[ps[i].key] == PresetEntry(ps[i], fetch(ps[i].avatarGroupId).reply)
    decreases |ps|
  {
    var init := ps[..|ps| - 1];
    if i < |init| {
      assert init[i] == ps[i];
      assert ps[i].key != ps[|ps| - 1].key;
      EntriesValues(init, fetch, i);
    }
  }

  // ---------------------------------------------------------------- picking a preset

  /** The avatar and voice `onPickPreset` hands to the auth context. */
  function Picked(previewByKey: map<string, PreviewEntry>, p: Preset): (r: (ChosenAvatar, ChosenVoice))
    ensures r.0.id == p.avatarId && r.0.avatarType.None?
    ensures r.1 == ChosenVoice(p.voiceId, p.voiceName)
    ensures p.key in previewByKey ==> r.0.name == previewByKey[p.key].name && r.0.imageUrl == Some(previewByKey[p.key].imageUrl)
    ensures p.key !in previewByKey ==> r.0.name == p.avatarName && r.0.imageUrl == Some("")
  {
    var name := if p.key in previewByKey then previewByKey[p.key].name else p.avatarName;
    var image := if p.key in previewByKey then previewByKey[p.key].imageUrl else "";
    (ChosenAvatar(p.avatarId, name, Some(image), None), ChosenVoice(p.voiceId, p.voiceName))
  }

  /**
   * Picking a preset once the previews have loaded: the avatar's image and name are the ones found in
   * its group listing, or an empty image and the preset's own name when the listing had no such
   * avatar or could not be fetched.
   */
  lemma PickAfterLoad(fetch: string -> PreviewFetch, i: nat)
    requires i < |Presets| && Entries(Presets, fetch).Some?
    ensures fetch(Presets[i].avatarGroupId).PreviewAnswered?
    ensures fetch(Presets[i].avatarGroupId).PreviewAnswered? ==>
      var p := Presets[i];
      var preview := FetchAvatarPreview(fetch(p.avatarGroupId).reply, p.avatarId);
      var (avatar, voice) := Picked(Entries(Presets, fetch).value, p);
      && avatar.id == p.avatarId
      && voice == ChosenVoice(p.voiceId, p.voiceName)
      && (preview.Some? ==> avatar.name == preview.value.resolvedName && avatar.imageUrl == Some(preview.value.imageUrl))
      && (preview.None? ==> avatar.name == p.avatarName && avatar.imageUrl == Some(""))
  {
    PresetKeysDistinct();
    EntriesValues(Presets, fetch, i);
  }

  /** `previewByKey` and `loading`. */
  class SubjectAvatarsPage {
    var previewByKey: map<string, PreviewEntry>
    var loading: bool

    constructor ()
      ensures previewByKey == map[] && !loading
    {
      previewByKey := map[];
      loading := false;
    }

    /** The effect's start: nothing without a token, otherwise the page shows it is loading. */
    method LoadStarted(token: Option<string>)
      modifies this
      ensures previewByKey == old(previewByKey)
      ensures loading == (Truthy(token) || old(loading))
    {
      if token.Some? && token.value != "" {
        loading := true;
      }
    }

    /**
     * The effect's end. An unmounted page (`cancelled`) changes nothing; a rejected Promise.all
     * keeps the old previews; otherwise the previews are replaced by the fresh entries.
     */
    method LoadFinished(fetch: string -> PreviewFetch, cancelled: bool)
      modifies this
      ensures cancelled ==> previewByKey == old(previewByKey) && loading == old(loading)
      ensures !cancelled ==> !loading
      ensures !cancelled && Entries(Presets, fetch).Some? ==> previewByKey == Entries(Presets, fetch).value
      ensures Entries(Presets, fetch).None? ==> previewByKey == old(previewByKey)
    {
      if cancelled {
        return;
      }
      var entries := Entries(Presets, fetch);
      if entries.Some? {
        previewByKey := entries.value;
      }
      loading := false;
    }

    /** `onPickPreset`: stores the avatar and voice in the context and opens the chat. */
    method PickPreset(auth: AuthProvider, p: Preset) returns (route: string)
      modifies auth
      ensures (auth.avatar, auth.voice) == (Some(Picked(previewByKey, p).0), Some(Picked(previewByKey, p).1))
      ensures auth.token == old(auth.token) && auth.storage == old(auth.storage)
      ensures route == "/chat"
    {
      var name := if p.key in previewByKey then previewByKey[p.key].name else p.avatarName;
      var image := if p.key in previewByKey then previewByKey[p.key].imageUrl else "";
      auth.SetAvatar(Some(ChosenAvatar(p.avatarId, name, Some(image), None)));
      auth.SetVoice(Some(ChosenVoice(p.voiceId, p.voiceName)));
      route := "/chat";
    }
  }
}
