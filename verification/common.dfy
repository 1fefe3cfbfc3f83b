/** The records of `model/common.py`, and the union of the five group
    notifications, each fixed by its own `type` tag. */
module Common {
  import opened Outcomes
  import opened Segments
  import opened Records

  const SexOptions: seq<string> := ["male", "female", "unknown"]
  const RoleOptions: seq<string> := ["member", "admin", "owner"]
  const StateOptions: seq<string> := ["pending", "accepted", "rejected", "ignored"]

  const FriendCategorySchema: Schema := [
    Required("category_id", IntType),
    Required("category_name", StrType)]

  const ProfileSchema: Schema := [
    Required("nickname", StrType),
    Required("qid", StrType),
    Required("age", IntType),
    Required("sex", LiteralType(SexOptions)),
    Required("remark", StrType),
    Required("bio", StrType),
    Required("level", IntType),
    Required("country", StrType),
    Required("city", StrType),
    Required("school", StrType)]

  const FriendSchema: Schema := [
    Required("user_id", IntType),
    Required("nickname", StrType),
    Required("sex", LiteralType(SexOptions)),
    Required("qid", StrType),
    Required("remark", StrType),
    Required("category", ModelType(FriendCategorySchema))]

  const GroupSchema: Schema := [
    Required("group_id", IntType),
    Required("group_name", StrType),
    Required("member_count", IntType),
    Required("max_member_count", IntType)]

  const MemberSchema: Schema := [
    Required("user_id", IntType),
    Required("nickname", StrType),
    Required("sex", LiteralType(SexOptions)),
    Required("group_id", IntType),
    Required("card", StrType),
    Required("title", StrType),
    Required("level", IntType),
    Required("role", LiteralType(RoleOptions)),
    Required("join_time", IntType),
    Required("last_sent_time", IntType),
    OptionalField("shut_up_end_time", IntType)]

  const AnnouncementSchema: Schema := [
    Required("group_id", IntType),
    Required("announcement_id", StrType),
    Required("user_id", IntType),
    Required("time", IntType),
    Required("content", StrType),
    OptionalField("image_url", StrType)]

  const FileInfoSchema: Schema := [
    Required("group_id", IntType),
    Required("file_id", StrType),
    Required("file_name", StrType),
    Required("parent_folder_id", StrType),
    Required("file_size", IntType),
    Required("uploaded_time", IntType),
    OptionalField("expire_time", IntType),
    Required("uploader_id", IntType),
    Required("downloaded_times", IntType)]

  const FolderInfoSchema: Schema := [
    Required("group_id", IntType),
    Required("folder_id", StrType),
    Required("folder_name", StrType),
    Required("parent_folder_id", StrType),
    Required("created_time", IntType),
    Required("last_modified_time", IntType),
    Required("creator_id", IntType),
    Required("file_count", IntType)]

  const GroupEssenceMessageSchema: Schema := [
    Required("group_id", IntType),
    Required("message_seq", IntType),
    Required("message_time", IntType),
    Required("sender_id", IntType),
    Required("sender_name", StrType),
    Required("operator_id", IntType),
    Required("operator_name", StrType),
    Required("operation_time", IntType),
    Required("segments", DictListType)]

  const FriendRequestSchema: Schema := [
    Required("time", IntType),
    Required("initiator_id", IntType),
    Required("initiator_uid", StrType),
    Required("target_user_id", IntType),
    Required("target_user_uid", StrType),
    Required("state", LiteralType(StateOptions)),
    Required("comment", StrType),
    Required("via", StrType),
    Required("is_filtered", BoolType)]

  // ---------------------------------------------------------------------------
  // group notifications

  datatype NotificationKind = JoinRequest | AdminChange | Kick | Quit | InvitedJoinRequest

  /** The union's members, in the order `GroupNotification` lists them. */
  const NotificationKinds: seq<NotificationKind> := [JoinRequest, AdminChange, Kick, Quit, InvitedJoinRequest]

  /** The fixed `type` of each notification class. */
  function NotificationTag(k: NotificationKind): string
  {
    match k
    case JoinRequest => "join_request"
    case AdminChange => "admin_change"
    case Kick => "kick"
    case Quit => "quit"
    case InvitedJoinRequest => "invited_join_request"
  }

  const JoinRequestSchema: Schema := [
    TagField("type", "join_request"),
    Required("group_id", IntType),
    Required("notification_seq", IntType),
    Required("is_filtered", BoolType),
    Required("initiator_id", IntType),
    Required("state", LiteralType(StateOptions)),
    OptionalField("operator_id", IntType),
    Required("comment", StrType)]

  const AdminChangeSchema: Schema := [
    TagField("type", "admin_change"),
    Required("group_id", IntType),
    Required("notification_seq", IntType),
    Required("target_user_id", IntType),
    Required("is_set", BoolType),
    Required("operator_id", IntType)]

  const KickSchema: Schema := [
    TagField("type", "kick"),
    Required("group_id", IntType),
    Required("notification_seq", IntType),
    Required("target_user_id", IntType),
    Required("operator_id", IntType)]

  const QuitSchema: Schema := [
    TagField("type", "quit"),
    Required("group_id", IntType),
    Required("notification_seq", IntType),
    Required("target_user_id", IntType)]

  const InvitedJoinRequestSchema: Schema := [
    TagField("type", "invited_join_request"),
    Required("group_id", IntType),
    Required("notification_seq", IntType),
    Required("initiator_id", IntType),
    Required("target_user_id", IntType),
    Required("state", LiteralType(StateOptions)),
    OptionalField("operator_id", IntType)]

  /** Each notification class; its `type` tag is always declared first. */
  function NotificationSchema(k: NotificationKind): (s: Schema)
    ensures |s| > 0 && s[0] == TagField("type", NotificationTag(k))
  {
    match k
    case JoinRequest => JoinRequestSchema
    case AdminChange => AdminChangeSchema
    case Kick => KickSchema
    case Quit => QuitSchema
    case InvitedJoinRequest => InvitedJoinRequestSchema
  }

  /** The five tags are pairwise distinct. */
  lemma NotificationTagsDistinct(a: NotificationKind, b: NotificationKind)
    ensures NotificationTag(a) == NotificationTag(b) <==> a == b
  {
    if a != b {
      var ta, tb := NotificationTag(a), NotificationTag(b);
      assert |ta| != |tb| || ta[0] != tb[0];
    }
  }

  datatype Notification = Notification(kind: NotificationKind, record: map<string, Value>)

  /** Validation against the union: its members are tried in order and the
      first that accepts the dict wins. */
  function ValidateNotification(v: Value): Result<Notification, ValidationError>
  {
    FirstAccepting(NotificationKinds, v)
  }

  function FirstAccepting(kinds: seq<NotificationKind>, v: Value): (r: Result<Notification, ValidationError>)
    ensures r.Ok? ==> r.value.kind in kinds && Validate(NotificationSchema(r.value.kind), v) == Ok(r.value.record)
    ensures r.Err? ==> forall i | 0 <= i < |kinds| :: Validate(NotificationSchema(kinds[i]), v).Err?
  {
    if kinds == [] then Err(Invalid("GroupNotification"))
    else
      var rec := Validate(NotificationSchema(kinds[0]), v);
      if rec.Ok? then Ok(Notification(kinds[0], rec.value))
      else
        var rest := FirstAccepting(kinds[1..], v);
        assert forall i | 1 <= i < |kinds| :: kinds[i] == kinds[1..][i - 1];
        rest
  }

  /** A validated notification always carries its own class's tag, whether
      the dict gave it or the default filled it in. */
  lemma ValidatedTag(k: NotificationKind, v: Value)
    requires Validate(NotificationSchema(k), v).Ok?
    ensures "type" in Validate(NotificationSchema(k), v).value
    ensures Validate(NotificationSchema(k), v).value["type"] == Str(NotificationTag(k))
    ensures "type" in v.fields ==> v.fields["type"] == Str(NotificationTag(k))
  {
    var s := NotificationSchema(k);
    FieldIndexAt(s, 0);
    ValidatedField(s, v, 0);
  }

  /** A dict that names its `type` is accepted by no class but the one with that tag. */
  lemma OnlyTaggedClassAccepts(k: NotificationKind, v: Value)
    requires v.Object? && "type" in v.fields && v.fields["type"] == Str(NotificationTag(k))
    ensures forall j :: Validate(NotificationSchema(j), v).Ok? ==> j == k
  {
    forall j | Validate(NotificationSchema(j), v).Ok? ensures j == k {
      ValidatedTag(j, v);
      NotificationTagsDistinct(j, k);
    }
  }

  /** With a `type` tag, the union resolves to the tagged class, whatever
      order its members are tried in. */
  lemma UnionFollowsTag(k: NotificationKind, v: Value)
    requires v.Object? && "type" in v.fields && v.fields["type"] == Str(NotificationTag(k))
    ensures ValidateNotification(v).Ok? <==> Validate(NotificationSchema(k), v).Ok?
    ensures ValidateNotification(v).Ok? ==>
      ValidateNotification(v) == Ok(Notification(k, Validate(NotificationSchema(k), v).value))
  {
    OnlyTaggedClassAccepts(k, v);
    assert k in NotificationKinds by {
      match k
      case JoinRequest => assert NotificationKinds[0] == k;
      case AdminChange => assert NotificationKinds[1] == k;
      case Kick => assert NotificationKinds[2] == k;
      case Quit => assert NotificationKinds[3] == k;
      case InvitedJoinRequest => assert NotificationKinds[4] == k;
    }
  }

  /** The fields of a kick notification, without its `type` tag. */
  function UntaggedKick(group: int, seqNo: int, target: int, operator: int): Value
  {
    Object(map["group_id" := Int(group), "notification_seq" := Int(seqNo),
               "target_user_id" := Int(target), "operator_id" := Int(operator)])
  }

  lemma UntaggedKickFailsEarlierClasses(group: int, seqNo: int, target: int, operator: int)
    ensures Validate(JoinRequestSchema, UntaggedKick(group, seqNo, target, operator)).Err?
    ensures Validate(AdminChangeSchema, UntaggedKick(group, seqNo, target, operator)).Err?
  {
    var v := UntaggedKick(group, seqNo, target, operator);
    MissingRequiredFails(JoinRequestSchema, v, 3);
    MissingRequiredFails(AdminChangeSchema, v, 4);
  }

  lemma UntaggedKickFitsKickAndQuit(group: int, seqNo: int, target: int, operator: int)
    ensures Validate(KickSchema, UntaggedKick(group, seqNo, target, operator)).Ok?
    ensures Validate(QuitSchema, UntaggedKick(group, seqNo, target, operator)).Ok?
  {
    var v := UntaggedKick(group, seqNo, target, operator);
    CheckFieldsSpec(KickSchema, v.fields);
    CheckFieldsSpec(QuitSchema, v.fields);
  }

  /** The union takes the first member, in declaration order, that accepts the dict. */
  lemma {:induction false} FirstAcceptingIsFirst(kinds: seq<NotificationKind>, v: Value, i: nat)
    requires i < |kinds| && Validate(NotificationSchema(kinds[i]), v).Ok?
    requires forall j | 0 <= j < i :: Validate(NotificationSchema(kinds[j]), v).Err?
    ensures FirstAccepting(kinds, v) == Ok(Notification(kinds[i], Validate(NotificationSchema(kinds[i]), v).value))
    decreases i
  {
    if i > 0 {
      assert forall j | 0 <= j < i - 1 :: kinds[1..][j] == kinds[j + 1];
      FirstAcceptingIsFirst(kinds[1..], v, i - 1);
    }
  }

  /** Kick is chosen for a dict that the two earlier members reject and kick accepts. */
  lemma KickChosenAfterEarlierFail(v: Value)
    requires Validate(JoinRequestSchema, v).Err? && Validate(AdminChangeSchema, v).Err?
    requires Validate(KickSchema, v).Ok?
    ensures ValidateNotification(v) == Ok(Notification(Kick, Validate(KickSchema, v).value))
  {
    var kinds := NotificationKinds;
    assert kinds[0] == JoinRequest && kinds[1] == AdminChange && kinds[2] == Kick;
    FirstAcceptingIsFirst(kinds, v, 2);
  }

  /** Without a `type` tag the union is not decided by the fields: a kick
      notification's fields also satisfy the quit class, and the earlier
      member, kick, is chosen. */
  lemma UntaggedUnionIsAmbiguous(group: int, seqNo: int, target: int, operator: int)
    ensures var v := UntaggedKick(group, seqNo, target, operator);
      && Validate(KickSchema, v).Ok? && Validate(QuitSchema, v).Ok?
      && ValidateNotification(v) == Ok(Notification(Kick, Validate(KickSchema, v).value))
  {
    UntaggedKickFailsEarlierClasses(group, seqNo, target, operator);
    UntaggedKickFitsKickAndQuit(group, seqNo, target, operator);
    KickChosenAfterEarlierFail(UntaggedKick(group, seqNo, target, operator));
  }

  // ---------------------------------------------------------------------------
  // closed literals and optional fields

  /** A friend request's `state` is one of its four literals. */
  lemma FriendRequestStateClosed(v: Value)
    requires Validate(FriendRequestSchema, v).Ok?
    ensures var rec := Validate(FriendRequestSchema, v).value;
      "state" in rec && rec["state"].Str? && rec["state"].s in StateOptions
  {
    FieldIndexAt(FriendRequestSchema, 5);
    LiteralFieldClosed(FriendRequestSchema, v, 5);
  }

  /** So is the `state` of both join-request notifications. */
  lemma JoinRequestStateClosed(v: Value)
    requires Validate(JoinRequestSchema, v).Ok?
    ensures var rec := Validate(JoinRequestSchema, v).value;
      "state" in rec && rec["state"].Str? && rec["state"].s in StateOptions
  {
    FieldIndexAt(JoinRequestSchema, 5);
    LiteralFieldClosed(JoinRequestSchema, v, 5);
  }

  lemma InvitedJoinRequestStateClosed(v: Value)
    requires Validate(InvitedJoinRequestSchema, v).Ok?
    ensures var rec := Validate(InvitedJoinRequestSchema, v).value;
      "state" in rec && rec["state"].Str? && rec["state"].s in StateOptions
  {
    FieldIndexAt(InvitedJoinRequestSchema, 5);
    LiteralFieldClosed(InvitedJoinRequestSchema, v, 5);
  }

  /** `operator_id` is required in an admin change and in a kick. */
  lemma OperatorIdRequired(v: Value)
    requires v.Object? && "operator_id" !in v.fields
    ensures Validate(AdminChangeSchema, v).Err?
    ensures Validate(KickSchema, v).Err?
  {
    MissingRequiredFails(AdminChangeSchema, v, 5);
    MissingRequiredFails(KickSchema, v, 4);
  }

  /** `operator_id` may be left out of a join request, and then reads `None`. */
  lemma JoinRequestOperatorOptional(v: Value)
    requires v.Object? && "operator_id" !in v.fields && Validate(JoinRequestSchema, v).Ok?
    ensures var rec := Validate(JoinRequestSchema, v).value;
      "operator_id" in rec && rec["operator_id"] == Null
  {
    FieldIndexAt(JoinRequestSchema, 6);
    AbsentFieldDefaults(JoinRequestSchema, v, 6);
  }

  /** Likewise for an invited join request. */
  lemma InvitedJoinRequestOperatorOptional(v: Value)
    requires v.Object? && "operator_id" !in v.fields && Validate(InvitedJoinRequestSchema, v).Ok?
    ensures var rec := Validate(InvitedJoinRequestSchema, v).value;
      "operator_id" in rec && rec["operator_id"] == Null
  {
    FieldIndexAt(InvitedJoinRequestSchema, 6);
    AbsentFieldDefaults(InvitedJoinRequestSchema, v, 6);
  }

  /** A profile's `sex` is one of three literals. */
  lemma ProfileSexClosed(v: Value)
    requires Validate(ProfileSchema, v).Ok?
    ensures var rec := Validate(ProfileSchema, v).value;
      "sex" in rec && rec["sex"].Str? && rec["sex"].s in SexOptions
  {
    FieldIndexAt(ProfileSchema, 3);
    LiteralFieldClosed(ProfileSchema, v, 3);
  }

  /** So is a friend's. */
  lemma FriendSexClosed(v: Value)
    requires Validate(FriendSchema, v).Ok?
    ensures var rec := Validate(FriendSchema, v).value;
      "sex" in rec && rec["sex"].Str? && rec["sex"].s in SexOptions
  {
    FieldIndexAt(FriendSchema, 2);
    LiteralFieldClosed(FriendSchema, v, 2);
  }

  /** A member's `sex` and `role` are each one of three literals. */
  lemma MemberSexAndRoleClosed(v: Value)
    requires Validate(MemberSchema, v).Ok?
    ensures var rec := Validate(MemberSchema, v).value;
      && "sex" in rec && rec["sex"].Str? && rec["sex"].s in SexOptions
      && "role" in rec && rec["role"].Str? && rec["role"].s in RoleOptions
  {
    FieldIndexAt(MemberSchema, 2);
    LiteralFieldClosed(MemberSchema, v, 2);
    FieldIndexAt(MemberSchema, 7);
    LiteralFieldClosed(MemberSchema, v, 7);
  }

  /** `Member.shut_up_end_time` reads `None` when left out. */
  lemma MemberShutUpOptional(v: Value)
    requires v.Object? && "shut_up_end_time" !in v.fields && Validate(MemberSchema, v).Ok?
    ensures var rec := Validate(MemberSchema, v).value;
      "shut_up_end_time" in rec && rec["shut_up_end_time"] == Null
  {
    FieldIndexAt(MemberSchema, 10);
    AbsentFieldDefaults(MemberSchema, v, 10);
  }

  /** `Announcement.image_url` reads `None` when left out. */
  lemma AnnouncementImageOptional(v: Value)
    requires v.Object? && "image_url" !in v.fields && Validate(AnnouncementSchema, v).Ok?
    ensures var rec := Validate(AnnouncementSchema, v).value;
      "image_url" in rec && rec["image_url"] == Null
  {
    FieldIndexAt(AnnouncementSchema, 5);
    AbsentFieldDefaults(AnnouncementSchema, v, 5);
  }

  /** `FileInfo.expire_time` reads `None` when left out. */
  lemma FileExpiryOptional(v: Value)
    requires v.Object? && "expire_time" !in v.fields && Validate(FileInfoSchema, v).Ok?
    ensures var rec := Validate(FileInfoSchema, v).value;
      "expire_time" in rec && rec["expire_time"] == Null
  {
    FieldIndexAt(FileInfoSchema, 6);
    AbsentFieldDefaults(FileInfoSchema, v, 6);
  }
}
