/** The records of `model.py`: `ModelBase.dict_`, the record classes the
    bot's API calls return, and the reply segments built from send responses. */
module Model {
  import opened Outcomes
  import opened Segments
  import opened Records

  /** `ModelBase.dict_`: the caller's `by_alias` and `exclude_none` are
      ignored and both are always on, so no `None` field is ever emitted. */
  function Dict(schema: Schema, rec: map<string, Value>, keep: Option<set<string>>,
                drop: Option<set<string>>, byAlias: bool, excludeNone: bool): (r: map<string, Value>)
    ensures forall k | k in r :: r[k] != Null
    ensures forall k | k in rec :: k in r <==>
      && rec[k] != Null
      && (keep.None? || k in keep.value)
      && (drop.None? || k !in drop.value)
    ensures forall k | k in r :: k in rec
  {
    ModelDump(schema, rec, keep, drop, true, true)
  }

  /** Whatever flags the caller passes, `dict_` produces the same dict. */
  lemma DictIgnoresFlags(schema: Schema, rec: map<string, Value>, keep: Option<set<string>>, drop: Option<set<string>>,
                         byAlias1: bool, excludeNone1: bool, byAlias2: bool, excludeNone2: bool)
    ensures Dict(schema, rec, keep, drop, byAlias1, excludeNone1) == Dict(schema, rec, keep, drop, byAlias2, excludeNone2)
  {
  }

  /** `dict_` leaves out `None` inside nested records as well. */
  lemma DictNoneFree(schema: Schema, rec: map<string, Value>, byAlias: bool, excludeNone: bool)
    ensures NoneFree(schema, Dict(schema, rec, None, None, byAlias, excludeNone))
  {
    DumpExcludesNone(schema, rec);
    assert Dict(schema, rec, None, None, byAlias, excludeNone) == DumpFields(schema, rec, true);
  }

  /** Validating the dict of a canonical record gives the record back. */
  lemma DictRoundTrip(schema: Schema, rec: map<string, Value>, byAlias: bool, excludeNone: bool)
    requires SchemaOk(schema) && Canonical(schema, rec)
    ensures Validate(schema, Object(Dict(schema, rec, None, None, byAlias, excludeNone))) == Ok(rec)
  {
    RoundTripRecord(schema, rec);
    assert Dict(schema, rec, None, None, byAlias, excludeNone) == DumpFields(schema, rec, true);
  }

  const SexOptions: seq<string> := ["male", "female", "unknown"]
  const RoleOptions: seq<string> := ["member", "admin", "owner"]

  const FriendCategorySchema: Schema := [
    Required("category_id", IntType),
    Required("category_name", StrType)]

  const FriendSchema: Schema := [
    Required("user_id", IntType),
    OptionalField("qid", StrType),
    Required("nickname", StrType),
    Required("remark", StrType),
    OptionalField("category", ModelType(FriendCategorySchema))]

  const GroupSchema: Schema := [
    Required("group_id", IntType),
    Required("name", StrType),
    Required("member_count", IntType),
    Required("max_member_count", IntType)]

  const MemberSchema: Schema := [
    Required("group_id", IntType),
    Required("user_id", IntType),
    Required("nickname", StrType),
    Required("card", StrType),
    OptionalField("title", StrType),
    Required("sex", LiteralType(SexOptions)),
    Required("level", IntType),
    Required("role", LiteralType(RoleOptions)),
    Required("join_time", IntType),
    Required("last_sent_time", IntType)]

  const AnnouncementSchema: Schema := [
    Required("group_id", IntType),
    Required("announcement_id", StrType),
    Required("user_id", IntType),
    Required("time", IntType),
    Required("content", StrType),
    OptionalField("image_url", StrType)]

  const FileInfoSchema: Schema := [
    Required("group_id", IntType),
    Required("file_id", StrType),
    Required("file_name", StrType),
    OptionalField("parent_folder_id", StrType),
    Required("file_size", IntType),
    Required("uploaded_time", IntType),
    Required("expire_time", IntType),
    Required("uploader_id", IntType),
    Required("downloaded_times", IntType)]

  const FolderInfoSchema: Schema := [
    Required("group_id", IntType),
    Required("folder_id", StrType),
    Required("folder_name", StrType),
    OptionalField("parent_folder_id", StrType),
    Required("created_time", IntType),
    Required("last_modified_time", IntType),
    Required("creator_id", IntType),
    Required("file_count", IntType)]

  const PrivateResponseSchema: Schema := [
    Required("message_seq", IntType),
    Required("time", IntType),
    Required("client_seq", IntType)]

  const GroupResponseSchema: Schema := [
    Required("message_seq", IntType),
    Required("time", IntType)]

  /** `Member.sex` and `Member.role` take only their literal values. */
  lemma MemberEnumsClosed(v: Value)
    requires Validate(MemberSchema, v).Ok?
    ensures var rec := Validate(MemberSchema, v).value;
      && "sex" in rec && rec["sex"] in {Str("male"), Str("female"), Str("unknown")}
      && "role" in rec && rec["role"] in {Str("member"), Str("admin"), Str("owner")}
  {
    FieldIndexAt(MemberSchema, 5);
    FieldIndexAt(MemberSchema, 7);
    ValidatedField(MemberSchema, v, 5);
    ValidatedField(MemberSchema, v, 7);
  }

  /** `Member.title` may be left out and then reads `None`; `Member.sex` may not. */
  lemma MemberTitleOptional(v: Value)
    requires v.Object? && "title" !in v.fields
    ensures Validate(MemberSchema, v).Ok? ==>
      "title" in Validate(MemberSchema, v).value && Validate(MemberSchema, v).value["title"] == Null
    ensures "sex" !in v.fields ==> Validate(MemberSchema, v).Err?
  {
    FieldIndexAt(MemberSchema, 4);
    if Validate(MemberSchema, v).Ok? {
      AbsentFieldDefaults(MemberSchema, v, 4);
    }
    if "sex" !in v.fields {
      MissingRequiredFails(MemberSchema, v, 5);
    }
  }

  /** `MessagePrivateResponse`, as the bot's `send_private_message` returns it. */
  datatype PrivateResponse = PrivateResponse(messageSeq: int, time: int, clientSeq: int)

  /** `MessageGroupResponse`, as the bot's `send_group_message` returns it. */
  datatype GroupResponse = GroupResponse(messageSeq: int, time: int)

  function ValidatePrivateResponse(v: Value): (r: Result<PrivateResponse, ValidationError>)
    ensures r.Ok? <==> Validate(PrivateResponseSchema, v).Ok?
    ensures r.Ok? ==> var rec := Validate(PrivateResponseSchema, v).value;
      && "message_seq" in rec && rec["message_seq"] == Int(r.value.messageSeq)
      && "time" in rec && rec["time"] == Int(r.value.time)
      && "client_seq" in rec && rec["client_seq"] == Int(r.value.clientSeq)
  {
    var rec := Validate(PrivateResponseSchema, v);
    if rec.Err? then Err(rec.error)
    else
      assert FieldIndex(PrivateResponseSchema, "time") == 1;
      assert FieldIndex(PrivateResponseSchema, "client_seq") == 2;
      ValidatedField(PrivateResponseSchema, v, 0);
      ValidatedField(PrivateResponseSchema, v, 1);
      ValidatedField(PrivateResponseSchema, v, 2);
      Ok(PrivateResponse(rec.value["message_seq"].i, rec.value["time"].i, rec.value["client_seq"].i))
  }

  function ValidateGroupResponse(v: Value): (r: Result<GroupResponse, ValidationError>)
    ensures r.Ok? <==> Validate(GroupResponseSchema, v).Ok?
    ensures r.Ok? ==> var rec := Validate(GroupResponseSchema, v).value;
      && "message_seq" in rec && rec["message_seq"] == Int(r.value.messageSeq)
      && "time" in rec && rec["time"] == Int(r.value.time)
  {
    var rec := Validate(GroupResponseSchema, v);
    if rec.Err? then Err(rec.error)
    else
      assert FieldIndex(GroupResponseSchema, "time") == 1;
      ValidatedField(GroupResponseSchema, v, 0);
      ValidatedField(GroupResponseSchema, v, 1);
      Ok(GroupResponse(rec.value["message_seq"].i, rec.value["time"].i))
  }

  /** `MessagePrivateResponse.get_reply`: a reply to the sent message, by
      sequence number and client sequence number. */
  function PrivateReply(resp: PrivateResponse): (s: Segment)
    ensures WellFormed(s) && s.kind == Reply
    ensures s.data.Keys == {"message_seq", "client_seq"}
    ensures s.data["message_seq"] == Int(resp.messageSeq) && s.data["client_seq"] == Int(resp.clientSeq)
  {
    Segment(Reply, "reply", map["message_seq" := Int(resp.messageSeq), "client_seq" := Int(resp.clientSeq)])
  }

  /** `MessageGroupResponse.get_reply`: a reply by sequence number only. */
  function GroupReply(resp: GroupResponse): (s: Segment)
    ensures WellFormed(s) && s.kind == Reply
    ensures s.data.Keys == {"message_seq"} && s.data["message_seq"] == Int(resp.messageSeq)
  {
    Segment(Reply, "reply", map["message_seq" := Int(resp.messageSeq)])
  }

  /** Both replies survive the segment codec, and the group reply is exactly
      what `MessageSegment.reply` builds for the same sequence number. */
  lemma RepliesRoundTrip(p: PrivateResponse, g: GroupResponse)
    ensures Dump(PrivateReply(p)).Ok? && ParseElement(Dump(PrivateReply(p)).value) == Ok(PrivateReply(p))
    ensures Dump(GroupReply(g)).Ok? && ParseElement(Dump(GroupReply(g)).value) == Ok(GroupReply(g))
    ensures GroupReply(g) == ReplySegment(g.messageSeq)
  {
    RoundTrip(PrivateReply(p));
    RoundTrip(GroupReply(g));
  }
}
