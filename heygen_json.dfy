/**
 * The avatar-group listing returned by HeyGen's `GET /v2/avatar_group/{group_id}/avatars`. The
 * backend reads it in `fetch_one_avatar_from_group` and forwards it unchanged to the frontend's
 * SubjectAvatarsPage through `/api/heygen/avatar-group/{group_id}/avatars`, so both read this shape.
 * A key that is absent or `null` is `None`.
 */
module HeygenJson {
  import opened Wrappers

  datatype GroupItem = GroupItem(
    avatarId: Option<string>,
    avatarName: Option<string>,
    previewImageUrl: Option<string>,
    previewVideoUrl: Option<string>,
    gender: Option<string>)

  /** HeyGen names the list `avatar_list` or `avatars`, depending on the endpoint version. */
  datatype GroupData = GroupData(avatarList: Option<seq<GroupItem>>, avatars: Option<seq<GroupItem>>)

  datatype GroupResponse = GroupResponse(data: Option<GroupData>)
}
