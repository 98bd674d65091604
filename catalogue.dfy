/**
 * The avatar and voice catalogues of the backend (backend/app/main.py): one avatar picked from each
 * configured HeyGen avatar group, the `/avatars` fallback, and the normalised, de-duplicated voice
 * list served by `/voices`. The HTTP requests to HeyGen are inputs: `fetch` answers the group request
 * for a group id, and a `VoicesFetch` is the outcome of the voices request.
 */
module Catalogue {
  import opened Wrappers
  import opened Text
  import opened HeygenJson
  import opened BackendSession

  /** The Avatar response model. */
  datatype Avatar = Avatar(
    id: string,
    name: string,
    imageUrl: Option<string>,
    previewVideoUrl: Option<string>,
    gender: Option<string>)

  /** The Voice response model. */
  datatype Voice = Voice(
    id: string,
    name: string,
    language: Option<string>,
    gender: Option<string>,
    previewAudio: Option<string>)

  /** The group request either raised (network, HTTP status, body not JSON) or returned a body. */
  datatype GroupFetch = GroupFailed | GroupFetched(body: GroupResponse)

  /** One entry of HeyGen's voice list; absent or `null` keys are `None`. */
  datatype VoiceItem = VoiceItem(
    voiceId: Option<string>,
    name: Option<string>,
    language: Option<string>,
    gender: Option<string>,
    previewAudio: Option<string>)

  /** The voices request either raised or returned `data.voices` (absent or `null` read as empty). */
  datatype VoicesFetch = VoicesFailed | VoicesFetched(items: seq<VoiceItem>)

  const AvatarGroupIds: seq<string> := [
    "1727664276", "1727657268", "1727662464", "1727686832", "1733544514",
    "1731908055", "1731895711", "1733876788", "1733086948", "1727064509",
    "1727621284", "1727720732", "1727708884", "1727713206", "1732927739"]

  const MaxVoices: nat := 20

  const FallbackAvatar: Avatar :=
    Avatar("Abigail_standing_office_front", "Abigail Office Front", None, None, None)

  // ---------------------------------------------------------------- avatars

  /** `data.get("avatar_list") or data.get("avatars") or []`: an empty list counts as missing. */
  function GroupItems(body: GroupResponse): (r: seq<GroupItem>)
    ensures r == [] <==>
      body.data.None? || (body.data.value.avatarList.GetOr([]) == [] && body.data.value.avatars.GetOr([]) == [])
    ensures r != [] ==>
      r == body.data.value.avatarList.GetOr([]) ||
      (body.data.value.avatarList.GetOr([]) == [] && r == body.data.value.avatars.GetOr([]))
  {
    match body.data
    case None => []
    case Some(d) =>
      if d.avatarList.Some? && d.avatarList.value != [] then d.avatarList.value
      else if d.avatars.Some? && d.avatars.value != [] then d.avatars.value
      else []
  }

  /** `fetch_one_avatar_from_group` once the request has been answered. */
  function FetchOneAvatarFromGroup(fetch: GroupFetch): (r: Option<Avatar>)
    ensures r.None? <==>
      fetch.GroupFailed? || GroupItems(fetch.body) == [] || !Truthy(GroupItems(fetch.body)[0].avatarId)
    ensures r.Some? ==>
      var item := GroupItems(fetch.body)[0];
      && r.value.id == item.avatarId.value && r.value.id != ""
      && r.value.name == (if Truthy(item.avatarName) then item.avatarName.value else r.value.id)
      && r.value.name != ""
      && r.value.imageUrl == item.previewImageUrl
      && r.value.previewVideoUrl == item.previewVideoUrl
      && r.value.gender == item.gender
  {
    if fetch.GroupFailed? then None
    else
      var items := GroupItems(fetch.body);
      if items == [] then None
      else
        var item := items[0];
        if !Truthy(item.avatarId) then None
        else
          var id := item.avatarId.value;
          var name := if Truthy(item.avatarName) then item.avatarName.value else id;
          Some(Avatar(id, name, item.previewImageUrl, item.previewVideoUrl, item.gender))
  }

  /** The avatars picked from `groupIds`, in group order, skipping groups that yield none. */
  function Collected(groupIds: seq<string>, fetch: string -> GroupFetch): (r: seq<Avatar>)
    ensures forall i :: 0 <= i < |r| ==> r[i].id != "" && r[i].name != ""
    decreases |groupIds|
  {
    if groupIds == [] then []
    else
      var picked := FetchOneAvatarFromGroup(fetch(groupIds[|groupIds| - 1]));
      Collected(groupIds[..|groupIds| - 1], fetch) + (if picked.Some? then [picked.value] else [])
  }

  /** At most one avatar per group. */
  lemma {:induction false} CollectedBound(groupIds: seq<string>, fetch: string -> GroupFetch)
    ensures |Collected(groupIds, fetch)| <= |groupIds|
    decreases |groupIds|
  {
    if groupIds != [] {
      CollectedBound(groupIds[..|groupIds| - 1], fetch);
    }
  }

  /** Group order is kept: the avatars of a concatenation of group lists are concatenated. */
  lemma {:induction false} CollectedAppend(first: seq<string>, second: seq<string>, fetch: string -> GroupFetch)
    ensures Collected(first + second, fetch) == Collected(first, fetch) + Collected(second, fetch)
    decreases |second|
  {
    if second != [] {
      var all := first + second;
      assert all[..|all| - 1] == first + second[..|second| - 1];
      assert all[|all| - 1] == second[|second| - 1];
      CollectedAppend(first, second[..|second| - 1], fetch);
    } else {
      assert first + second == first;
    }
  }

  /** Every group that yields an avatar contributes it, and every listed avatar comes from a group. */
  lemma {:induction false} CollectedExactly(groupIds: seq<string>, fetch: string -> GroupFetch, a: Avatar)
    ensures a in Collected(groupIds, fetch) <==>
      exists k :: 0 <= k < |groupIds| && FetchOneAvatarFromGroup(fetch(groupIds[k])) == Some(a)
    decreases |groupIds|
  {
    if groupIds != [] {
      var prefix := groupIds[..|groupIds| - 1];
      CollectedExactly(prefix, fetch, a);
      if exists k :: 0 <= k < |groupIds| && FetchOneAvatarFromGroup(fetch(groupIds[k])) == Some(a) {
        var k :| 0 <= k < |groupIds| && FetchOneAvatarFromGroup(fetch(groupIds[k])) == Some(a);
        if k < |prefix| {
          assert prefix[k] == groupIds[k];
        }
      }
      if a in Collected(prefix, fetch) {
        var k :| 0 <= k < |prefix| && FetchOneAvatarFromGroup(fetch(prefix[k])) == Some(a);
        assert groupIds[k] == prefix[k];
      }
    }
  }

  /** `fetch_avatars_from_heygen`: one request per configured group, appending what each yields. */
  method FetchAvatarsFromHeygen(fetch: string -> GroupFetch) returns (avatars: seq<Avatar>)
    ensures avatars == Collected(AvatarGroupIds, fetch)
    ensures |avatars| <= |AvatarGroupIds|
  {
    avatars := [];
    for i := 0 to |AvatarGroupIds|
      invariant avatars == Collected(AvatarGroupIds[..i], fetch)
    {
      assert AvatarGroupIds[..i + 1][..i] == AvatarGroupIds[..i];
      var a := FetchOneAvatarFromGroup(fetch(AvatarGroupIds[i]));
      if a.Some? {
        avatars := avatars + [a.value];
      }
    }
    assert AvatarGroupIds[..|AvatarGroupIds|] == AvatarGroupIds;
    CollectedBound(AvatarGroupIds, fetch);
  }

  /** `/avatars`: the cached list, or the single fallback avatar when the list is empty. */
  function ListAvatars(cached: seq<Avatar>): (r: seq<Avatar>)
    ensures r != []
    ensures cached != [] ==> r == cached
    ensures cached == [] ==> r == [FallbackAvatar]
  {
    if cached == [] then [FallbackAvatar] else cached
  }

  // ---------------------------------------------------------------- voices

  /** A voice as the list keeps it: an id, a one-word name, and a trimmed non-empty preview. */
  predicate WellFormed(v: Voice) {
    && v.id != ""
    && v.name != "" && NoSpace(v.name)
    && v.previewAudio.Some? && v.previewAudio.value != ""
    && !IsSpace(v.previewAudio.value[0]) && !IsSpace(v.previewAudio.value[|v.previewAudio.value| - 1])
  }

  /** What one item of the voice list becomes, or None when it is skipped. */
  function NormalizeVoice(item: VoiceItem): (r: Option<Voice>)
    ensures r.Some? ==> item.voiceId.Some? && r.value.id == item.voiceId.value && r.value.id != ""
    ensures r.Some? ==> r.value.language == item.language && r.value.gender == item.gender
    ensures r.Some? ==> r.value.previewAudio.Some?
  {
    var name := FirstWord(item.name.GetOr(""));
    var previewAudio := Trim(item.previewAudio.GetOr(""));
    if !Truthy(item.voiceId) || name == "" || previewAudio == "" then None
    else Some(Voice(item.voiceId.value, name, item.language, item.gender, Some(previewAudio)))
  }

  /**
   * An item is kept exactly when it has a truthy id, a name that is not blank and a preview that is
   * not blank; the voice it becomes is well formed, keeps the id, is named by the first word and
   * carries the stripped preview.
   */
  lemma NormalizeVoiceMeaning(item: VoiceItem)
    ensures NormalizeVoice(item).Some? <==>
      Truthy(item.voiceId) && !AllSpace(item.name.GetOr("")) && !AllSpace(item.previewAudio.GetOr(""))
    ensures NormalizeVoice(item).Some? ==>
      && WellFormed(NormalizeVoice(item).value)
      && NormalizeVoice(item).value.id == item.voiceId.value
      && NormalizeVoice(item).value.name == FirstWord(item.name.GetOr(""))
      && NormalizeVoice(item).value.previewAudio == Some(Trim(item.previewAudio.GetOr("")))
  {
    var name := FirstWord(item.name.GetOr(""));
    var previewAudio := Trim(item.previewAudio.GetOr(""));
    assert name == [] <==> AllSpace(item.name.GetOr(""));
    assert previewAudio == [] <==> AllSpace(item.previewAudio.GetOr(""));
  }

  /** The key of `by_name` a voice is stored under. */
  function Key(v: Voice): string {
    Lower(v.name)
  }

  /** What each item of the voice list becomes, in list order. */
  function Candidates(items: seq<VoiceItem>): (cs: seq<Option<Voice>>)
    ensures |cs| == |items|
    ensures forall i :: 0 <= i < |items| ==> cs[i] == NormalizeVoice(items[i])
  {
    seq(|items|, i requires 0 <= i < |items| => NormalizeVoice(items[i]))
  }

  /** The keys that the voices of `vs` occupy. */
  function NameKeys(vs: seq<Voice>): set<string> {
    set i | 0 <= i < |vs| :: Key(vs[i])
  }

  /** Candidate `c` is a voice stored under `key`. */
  predicate HasKey(c: Option<Voice>, key: string) {
    c.Some? && Key(c.value) == key
  }

  /** The values of `by_name`, in insertion order, after the loop has read the items behind `cs`. */
  function Deduped(cs: seq<Option<Voice>>): (d: seq<Voice>)
    ensures |d| <= |cs|
    ensures forall i :: 0 <= i < |d| ==> Some(d[i]) in cs
    ensures forall i, j :: 0 <= i < j < |d| ==> Key(d[i]) != Key(d[j])
    decreases |cs|
  {
    if cs == [] then []
    else
      var before := Deduped(cs[..|cs| - 1]);
      var c := cs[|cs| - 1];
      assert forall i :: 0 <= i < |before| ==> Some(before[i]) in cs[..|cs| - 1];
      if c.None? || Key(c.value) in NameKeys(before) then before
      else
        assert forall i :: 0 <= i < |before| ==> Key(before[i]) in NameKeys(before);
        before + [c.value]
  }

  lemma NameKeysAppend(vs: seq<Voice>, v: Voice)
    ensures NameKeys(vs + [v]) == NameKeys(vs) + {Key(v)}
  {
    var all := vs + [v];
    assert forall i :: 0 <= i < |vs| ==> all[i] == vs[i];
    assert all[|vs|] == v;
  }

  /** Every candidate voice has its key in the list: nothing valid is lost to de-duplication. */
  lemma {:induction false} DedupedComplete(cs: seq<Option<Voice>>, k: nat, key: string)
    requires k < |cs| && HasKey(cs[k], key)
    ensures key in NameKeys(Deduped(cs))
    decreases |cs|
  {
    var prefix := cs[..|cs| - 1];
    var before := Deduped(prefix);
    var c := cs[|cs| - 1];
    if !(c.None? || Key(c.value) in NameKeys(before)) {
      NameKeysAppend(before, c.value);
    }
    if k < |prefix| {
      assert prefix[k] == cs[k];
      DedupedComplete(prefix, k, key);
    }
  }

  /** No candidate before position `k` is a voice with key `key`. */
  predicate NoEarlierKey(cs: seq<Option<Voice>>, k: nat, key: string)
    requires k <= |cs|
  {
    forall j :: 0 <= j < k ==> !HasKey(cs[j], key)
  }

  /** The first candidate with `key` is at position `k`, and it is voice `v`. */
  predicate FirstWithKey(cs: seq<Option<Voice>>, k: nat, v: Voice)
    requires k < |cs|
  {
    cs[k] == Some(v) && NoEarlierKey(cs, k, Key(v))
  }

  /** Each kept voice is the first candidate with its case-insensitive name. */
  lemma {:induction false} DedupedFirstWins(cs: seq<Option<Voice>>, i: nat)
    requires i < |Deduped(cs)|
    ensures exists k :: 0 <= k < |cs| && FirstWithKey(cs, k, Deduped(cs)[i])
    decreases |cs|
  {
    var prefix := cs[..|cs| - 1];
    var before := Deduped(prefix);
    var c := cs[|cs| - 1];
    var d := Deduped(cs);
    var key := Key(d[i]);
    if i < |before| {
      assert d[i] == before[i];
      DedupedFirstWins(prefix, i);
      var k :| 0 <= k < |prefix| && FirstWithKey(prefix, k, before[i]);
      assert FirstWithKey(cs, k, d[i]) by {
        assert forall j :: 0 <= j <= k ==> cs[j] == prefix[j];
      }
    } else {
      var k := |cs| - 1;
      assert d == before + [c.value] && d[i] == c.value;
      forall j | 0 <= j < k
        ensures !HasKey(cs[j], key)
      {
        if HasKey(cs[j], key) {
          assert prefix[j] == cs[j];
          DedupedComplete(prefix, j, key);
          assert false;
        }
      }
      assert FirstWithKey(cs, k, d[i]);
    }
  }

  /** `voices[:20]` when the list is longer than 20. */
  function FirstN(vs: seq<Voice>, n: nat): (r: seq<Voice>)
    ensures |r| == (if |vs| <= n then |vs| else n) && r == vs[..|r|]
    ensures |vs| <= n ==> r == vs
  {
    if |vs| > n then vs[..n] else vs
  }

  /** One more item read by the loop: its candidate is appended unless it is absent or its key is taken. */
  lemma DedupedStep(cs: seq<Option<Voice>>, i: nat)
    requires i < |cs|
    ensures Deduped(cs[..i + 1]) ==
      if cs[i].None? || Key(cs[i].value) in NameKeys(Deduped(cs[..i])) then Deduped(cs[..i])
      else Deduped(cs[..i]) + [cs[i].value]
  {
    assert cs[..i + 1][..i] == cs[..i];
  }

  /** Every voice the list keeps is well formed. */
  lemma DedupedWellFormed(items: seq<VoiceItem>)
    ensures forall i :: 0 <= i < |Deduped(Candidates(items))| ==> WellFormed(Deduped(Candidates(items))[i])
  {
    var cs := Candidates(items);
    var d := Deduped(cs);
    forall i | 0 <= i < |d|
      ensures WellFormed(d[i])
    {
      var k :| 0 <= k < |cs| && cs[k] == Some(d[i]);
      NormalizeVoiceMeaning(items[k]);
    }
  }

  /**
   * One item read by the `by_name` loop: its candidate `c` is stored exactly when it is a voice whose
   * key the dictionary `byName` does not hold yet, and the list of values grows accordingly.
   */
  lemma CollectStep(cs: seq<Option<Voice>>, i: nat, c: Option<Voice>, values: seq<Voice>, byName: map<string, Voice>)
    requires i < |cs| && c == cs[i] && values == Deduped(cs[..i]) && byName.Keys == NameKeys(values)
    ensures c.Some? && Key(c.value) !in byName ==>
      && Deduped(cs[..i + 1]) == values + [c.value]
      && byName[Key(c.value) := c.value].Keys == NameKeys(values + [c.value])
    ensures !(c.Some? && Key(c.value) !in byName) ==> Deduped(cs[..i + 1]) == values
  {
    DedupedStep(cs, i);
    if c.Some? {
      NameKeysAppend(values, c.value);
    }
  }

  /**
   * The `by_name` loop of `get_cached_voices`: keep the items with an id, a name and a preview, name
   * each by its first word, and keep the first voice per case-insensitive name, in insertion order.
   */
  method CollectVoices(items: seq<VoiceItem>) returns (values: seq<Voice>)
    ensures values == Deduped(Candidates(items))
  {
    ghost var cs := Candidates(items);
    // `by_name`: the dictionary, and the order in which its values were inserted
    var byName: map<string, Voice> := map[];
    values := [];
    for i := 0 to |items|
      invariant values == Deduped(cs[..i])
      invariant byName.Keys == NameKeys(values)
    {
      // the item's id, first word of its name and trimmed preview, or None when one is missing
      var candidate := NormalizeVoice(items[i]);
      CollectStep(cs, i, candidate, values, byName);
      if candidate.Some? && Key(candidate.value) !in byName {
        var v := candidate.value;
        byName := byName[Key(v) := v];
        values := values + [v];
      }
    }
    assert cs[..|items|] == cs;
  }

  /**
   * `get_cached_voices` once the request has been answered: the de-duplicated voices, capped at 20;
   * a failed request gives the empty list.
   */
  method GetCachedVoices(fetch: VoicesFetch) returns (voices: seq<Voice>)
    ensures fetch.VoicesFailed? ==> voices == []
    ensures fetch.VoicesFetched? ==> voices == FirstN(Deduped(Candidates(fetch.items)), MaxVoices)
    ensures |voices| <= MaxVoices
    ensures forall i :: 0 <= i < |voices| ==> WellFormed(voices[i])
    ensures forall i, j :: 0 <= i < j < |voices| ==> Key(voices[i]) != Key(voices[j])
  {
    if fetch.VoicesFailed? {
      return [];
    }
    voices := CollectVoices(fetch.items);
    DedupedWellFormed(fetch.items);
    if |voices| > MaxVoices {
      voices := voices[..MaxVoices];
    }
  }

  /** `/voices`: the list, or HTTP 500 when it is empty. */
  function ListVoices(voices: seq<Voice>): (r: Result<seq<Voice>, HttpError>)
    ensures r.Ok? <==> voices != []
    ensures r.Ok? ==> r.value == voices
    ensures r.Err? ==> r.error == HttpError(500, "Cannot load HeyGen voices.")
  {
    if voices == [] then Err(HttpError(500, "Cannot load HeyGen voices.")) else Ok(voices)
  }
}
