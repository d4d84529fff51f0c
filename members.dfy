/**
 * The members section of the space sharing settings: which participants are
 * listed and in which order, the permission menu of a participant, and what
 * choosing an entry of that menu asks the backend to do.
 *
 * Backend commands are returned as `Request` values; translated texts are
 * represented by their translation keys.
 */
module Members {
  import opened JsValues

  /** Participant permission levels (numeric enum values). */
  const READER := 0
  const WRITER := 1
  const OWNER := 2

  datatype Status = Joining | Active | Removing | Removed | Declined | Canceled

  /** The statuses listed: active members, and joining requests for the owner only. */
  function Statuses(isOwner: bool): (r: seq<Status>)
    ensures |r| > 0 && r[0] == Active
    ensures Joining in r <==> isOwner
    ensures forall i | 0 <= i < |r| :: r[i] == Active || r[i] == Joining
    ensures forall i, j | 0 <= i < j < |r| :: r[i] != r[j]
  {
    if isOwner then [Active, Joining] else [Active]
  }

  datatype Participant = Participant(id: string, identity: string, permissions: int, isJoining: bool, createdDate: int)

  predicate IsOwner(p: Participant) {
    p.permissions == OWNER
  }

  /** The comparator of the participant list, as written. */
  function Compare(c1: Participant, c2: Participant): (r: int)
    ensures r == -1 || r == 0 || r == 1
    ensures IsOwner(c1) && !IsOwner(c2) ==> r == -1
    ensures !IsOwner(c1) && IsOwner(c2) ==> r == 1
    ensures IsOwner(c1) == IsOwner(c2) && c1.isJoining && !c2.isJoining ==> r == -1
    ensures IsOwner(c1) == IsOwner(c2) && !c1.isJoining && c2.isJoining ==> r == 1
    ensures IsOwner(c1) == IsOwner(c2) && c1.isJoining && c2.isJoining ==>
              r == if c1.createdDate < c2.createdDate then -1 else 1
    ensures IsOwner(c1) == IsOwner(c2) && !c1.isJoining && !c2.isJoining ==> r == 0
  {
    var isOwner1 := IsOwner(c1);
    var isOwner2 := IsOwner(c2);
    var isRequest1 := c1.isJoining;
    var isRequest2 := c2.isJoining;
    if isOwner1 && !isOwner2 then -1
    else if !isOwner1 && isOwner2 then 1
    else if isRequest1 && !isRequest2 then -1
    else if !isRequest1 && isRequest2 then 1
    else if isRequest1 && isRequest2 then (if c1.createdDate < c2.createdDate then -1 else 1)
    else 0
  }

  /** The group of a participant in the list: owner requests, owners, other requests, other members. */
  function Rank(p: Participant): nat {
    (if IsOwner(p) then 0 else 2) + (if p.isJoining then 0 else 1)
  }

  /** The comparator orders by group first; within a group only requests are ordered, by date. */
  lemma CompareIsRankOrder(c1: Participant, c2: Participant)
    ensures Rank(c1) < Rank(c2) ==> Compare(c1, c2) == -1
    ensures Rank(c1) > Rank(c2) ==> Compare(c1, c2) == 1
    ensures Rank(c1) == Rank(c2) && !c1.isJoining ==> Compare(c1, c2) == 0
    ensures Rank(c1) == Rank(c2) && c1.isJoining && c1.createdDate != c2.createdDate ==>
              Compare(c1, c2) == -Compare(c2, c1)
  {
  }

  /** Any two requests of the same group created at the same time both compare as greater than the other. */
  lemma CompareNotAntisymmetric(a: Participant, b: Participant)
    requires a.isJoining && b.isJoining && Rank(a) == Rank(b) && a.createdDate == b.createdDate
    ensures Compare(a, b) == 1 && Compare(b, a) == 1
    ensures Compare(a, b) != -Compare(b, a)
  {
  }

  /** The comparator with equal request dates comparing as equal. */
  function CompareFixed(c1: Participant, c2: Participant): (r: int)
    ensures r == -1 || r == 0 || r == 1
    ensures Rank(c1) < Rank(c2) ==> r == -1
    ensures Rank(c1) > Rank(c2) ==> r == 1
    ensures Rank(c1) == Rank(c2) && c1.isJoining ==>
              r == if c1.createdDate < c2.createdDate then -1 else if c1.createdDate > c2.createdDate then 1 else 0
    ensures Rank(c1) == Rank(c2) && !c1.isJoining ==> r == 0
  {
    var isOwner1 := IsOwner(c1);
    var isOwner2 := IsOwner(c2);
    var isRequest1 := c1.isJoining;
    var isRequest2 := c2.isJoining;
    if isOwner1 && !isOwner2 then -1
    else if !isOwner1 && isOwner2 then 1
    else if isRequest1 && !isRequest2 then -1
    else if !isRequest1 && isRequest2 then 1
    else if isRequest1 && isRequest2 then
      (if c1.createdDate < c2.createdDate then -1 else if c1.createdDate > c2.createdDate then 1 else 0)
    else 0
  }

  /** The corrected comparator is consistent: antisymmetric and transitive. */
  lemma CompareFixedConsistent(a: Participant, b: Participant, c: Participant)
    ensures CompareFixed(a, b) == -CompareFixed(b, a)
    ensures CompareFixed(a, b) <= 0 && CompareFixed(b, c) <= 0 ==> CompareFixed(a, c) <= 0
    ensures CompareFixed(a, b) == 0 && CompareFixed(b, c) == 0 ==> CompareFixed(a, c) == 0
  {
  }

  /** Both comparators agree except on two requests of the same group with equal dates. */
  lemma CompareAgreesOffTies(a: Participant, b: Participant)
    requires !(Rank(a) == Rank(b) && a.isJoining && a.createdDate == b.createdDate)
    ensures Compare(a, b) == CompareFixed(a, b)
  {
  }

  /** A participant list sorted by the corrected comparator. */
  predicate Ordered(s: seq<Participant>) {
    forall i, j | 0 <= i < j < |s| :: CompareFixed(s[i], s[j]) <= 0
  }

  /** A list that the written comparator orders pairwise is ordered by the corrected one. */
  lemma SortedByCompareIsOrdered(s: seq<Participant>)
    requires forall i, j | 0 <= i < j < |s| :: Compare(s[i], s[j]) <= 0
    ensures Ordered(s)
  {
    forall i, j | 0 <= i < j < |s|
      ensures CompareFixed(s[i], s[j]) <= 0
    {
      assert Compare(s[i], s[j]) <= 0;
    }
  }

  /** In an ordered list groups never interleave: owners first, then requests before members. */
  lemma {:induction false} OrderedByGroup(s: seq<Participant>, i: nat, j: nat)
    requires Ordered(s) && i < j < |s|
    ensures Rank(s[i]) <= Rank(s[j])
    ensures IsOwner(s[j]) ==> IsOwner(s[i])
    ensures IsOwner(s[i]) == IsOwner(s[j]) && s[j].isJoining ==> s[i].isJoining
  {
    assert CompareFixed(s[i], s[j]) <= 0;
  }

  // ---------------------------------------------------------------------------
  // Permission menu

  datatype Label = Unnamed | Key(key: string) | PermissionName(permission: int)

  datatype MenuItem =
    | PermissionItem(id: int, name: Label, disabled: bool)
    | Divider
    | RemoveItem(removeId: string, name: Label, color: string)

  /** The id of the remove entry, which the menu hands back on selection. */
  const REMOVE_ID := "remove"
  const REJECT_REQUEST := "popupSettingsSpaceShareRejectRequest"
  const REMOVE_MEMBER := "popupSettingsSpaceShareRemoveMember"

  /**
   * The permission menu of a participant: Reader and Writer, each disabled
   * when its remaining limit is not positive, a divider and the red remove
   * entry, labelled as rejecting a request or removing a member.
   */
  method ParticipantOptions(isNew: bool, readerLimit: int, writerLimit: int) returns (items: seq<MenuItem>)
    ensures |items| == 4
    ensures items[0] == PermissionItem(READER, PermissionName(READER), readerLimit <= 0)
    ensures items[1] == PermissionItem(WRITER, PermissionName(WRITER), writerLimit <= 0)
    ensures items[2] == Divider
    ensures items[3] == RemoveItem(REMOVE_ID, Key(if isNew then REJECT_REQUEST else REMOVE_MEMBER), "red")
  {
    var removeLabel := if isNew then REJECT_REQUEST else REMOVE_MEMBER;
    var isReaderLimit := readerLimit <= 0;
    var isWriterLimit := writerLimit <= 0;
    var base := [PermissionItem(READER, Unnamed, isReaderLimit), PermissionItem(WRITER, Unnamed, isWriterLimit)];

    items := [];
    for i := 0 to |base|
      invariant |items| == i
      invariant forall k | 0 <= k < i :: items[k] == PermissionItem(base[k].id, PermissionName(base[k].id), base[k].disabled)
    {
      var it := PermissionItem(base[i].id, PermissionName(base[i].id), base[i].disabled);
      items := items + [it];
    }

    if |items| > 0 {
      items := items + [Divider];
    }
    items := items + [RemoveItem(REMOVE_ID, Key(removeLabel), "red")];
  }

  // ---------------------------------------------------------------------------
  // Applying a menu choice

  /** `Number(v) || Reader`: the permission a selected menu value stands for. */
  function CoercePermission(v: JsValue): (p: int)
    ensures ToNumber(v).Int? && ToNumber(v).value != 0 ==> p == ToNumber(v).value
    ensures ToNumber(v).NaN? || ToNumber(v) == Int(0) ==> p == READER
  {
    var n := ToNumber(v);
    if n.Int? && n.value != 0 then n.value else READER
  }

  /** Choosing a permission entry of the menu yields exactly that permission. */
  lemma OfferedPermissionKept(p: int)
    requires p == READER || p == WRITER
    ensures CoercePermission(Num(Int(p))) == p
    ensures CoercePermission(Str(ToStr(Num(Int(p))))) == p
  {
    NumberOfStringRoundTrip(p);
  }

  /** What the confirmation of a choice asks the backend to do. */
  datatype Request =
    | DeclineRequest(identity: string)
    | RemoveParticipant(identity: string)
    | ApproveRequest(identity: string, permissions: int)
    | ChangePermissions(identity: string, permissions: int)

  /** The confirmation popup of a choice: its title key and the request run on confirm. */
  datatype Confirmation = Confirmation(title: string, request: Request)

  /**
   * `onChangePermissions`: "remove" declines a request or removes a member;
   * any other value is coerced to a permission that approves a request or
   * changes a member's permissions.
   */
  function OnChangePermissions(item: Participant, v: JsValue, isNew: bool): (c: Confirmation)
    ensures v == Str(REMOVE_ID) ==> c.title == "popupConfirmMemberRemoveTitle"
    ensures v == Str(REMOVE_ID) && isNew ==> c.request == DeclineRequest(item.identity)
    ensures v == Str(REMOVE_ID) && !isNew ==> c.request == RemoveParticipant(item.identity)
    ensures v != Str(REMOVE_ID) ==> c.title == "commonAreYouSure"
    ensures v != Str(REMOVE_ID) && isNew ==> c.request == ApproveRequest(item.identity, CoercePermission(v))
    ensures v != Str(REMOVE_ID) && !isNew ==> c.request == ChangePermissions(item.identity, CoercePermission(v))
  {
    if v == Str(REMOVE_ID) then
      Confirmation("popupConfirmMemberRemoveTitle",
                   if isNew then DeclineRequest(item.identity) else RemoveParticipant(item.identity))
    else
      var p := CoercePermission(v);
      Confirmation("commonAreYouSure",
                   if isNew then ApproveRequest(item.identity, p)
                   else ChangePermissions(item.identity, CoercePermission(Num(Int(p)))))
  }

  /** The participants other than the one with id `myId`. */
  function Others(list: seq<Participant>, myId: string): (r: seq<Participant>)
    ensures forall i | 0 <= i < |r| :: r[i].id != myId && r[i] in list
    ensures forall i | 0 <= i < |list| :: list[i].id != myId ==> list[i] in r
  {
    if list == [] then []
    else (if list[0].id != myId then [list[0]] else []) + Others(list[1..], myId)
  }

  /** After a removal or decline, sharing stops exactly when nobody but the current user is left. */
  function StopsSharing(list: seq<Participant>, myId: string): (r: bool)
    ensures r <==> forall i | 0 <= i < |list| :: list[i].id == myId
  {
    var others := Others(list, myId);
    assert others != [] ==> exists j | 0 <= j < |list| :: list[j] == others[0];
    others == []
  }

  /** The reader-limit banner shows for a shared space with no reader seats left on a paid tier. */
  function ShowLimit(isShared: bool, readerLimit: int, tierPrice: int): (r: bool)
    ensures r <==> isShared && readerLimit == 0 && tierPrice != 0
  {
    isShared && !(readerLimit != 0) && tierPrice != 0
  }

  /** The scroll position kept across re-renders of the list. */
  class MembersView {
    var top: int

    constructor ()
      ensures top == 0
    {
      top := 0;
    }

    /** `onScroll`: a zero scroll position does not overwrite the stored one. */
    method OnScroll(scrollTop: int)
      modifies this`top
      ensures top == if scrollTop != 0 then scrollTop else old(top)
    {
      if scrollTop != 0 {
        top := scrollTop;
      }
    }
  }
}
