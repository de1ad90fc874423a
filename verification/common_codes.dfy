/** The common-code table (`COMMON_CODE`), shared by the status and
    commentator lookups of the video pipeline and the team lookup of sign-up:
    each row's primary key with its code group. */
module CommonCodes {
  import opened Wrappers

  /** The common-code table: a row's code and its group. */
  type CodeTable = map<int, string>

  const StatusGroup: string := "STATUS"
  const CommentatorGroup: string := "COMMENTATOR"

  /** `_get_common_code(value, group)`: the row whose code is `value` and
      whose group is `group`, or None. */
  function LookupCode(codes: CodeTable, value: int, group: string): (r: Option<int>)
    ensures r.Some? <==> value in codes && codes[value] == group
    ensures r.Some? ==> r.value == value
  {
    if value in codes && codes[value] == group then Some(value) else None
  }
}
