/** `UserService`: the profile views, the password change and the portfolio of
    a cutter. The service reads the account store and runs its own queries on
    the `cutter_portfolio_items`, `appraiser_profiles` and `cutter_skills`
    tables, which are fields of the same store object here. */
module UserService {
  import opened Wrappers
  import opened JsValues
  import opened Credentials
  import opened SqlUpdate
  import opened UserStore
  import Seqs

  const UserNotFound := "User not found"
  const InvalidCurrentPassword := "Invalid current password"
  const CutterNotFound := "Cutter not found"
  const CutterProfileNotFound := "Cutter profile not found"
  const OnlyCuttersAdd := "Only cutters can add portfolio items"
  const OnlyCuttersUpdate := "Only cutters can update portfolio items"
  const OnlyCuttersDelete := "Only cutters can delete portfolio items"
  const ItemNotOwned := "Portfolio item not found or does not belong to this cutter"

  datatype Failure = Fail(message: string) | StoreFailure(error: DbError)

  // ---------------------------------------------------------------- portfolio reads

  /** `ORDER BY created_at DESC`: newer first. */
  predicate NewerFirst(a: PortfolioItemRow, b: PortfolioItemRow) {
    a.createdAt >= b.createdAt
  }

  lemma NewerFirstTotal()
    ensures Seqs.TotalPreorder(NewerFirst)
  {
  }

  /** The items rows with ids `ids`, in that order. */
  function ItemRows(items: map<int, PortfolioItemRow>, ids: seq<int>): (rows: seq<PortfolioItemRow>)
    requires forall i :: 0 <= i < |ids| ==> ids[i] in items
    ensures |rows| == |ids|
    ensures forall i :: 0 <= i < |ids| ==> rows[i] == items[ids[i]]
  {
    if ids == [] then [] else [items[ids[0]]] + ItemRows(items, ids[1..])
  }

  /** The ids of the items owned by cutter profile `profileId`. */
  function OwnedItemIds(items: map<int, PortfolioItemRow>, profileId: int): set<int> {
    set i | i in items && items[i].cutterProfileId == profileId
  }

  /** `SELECT * FROM cutter_portfolio_items WHERE cutter_profile_id = $1 ORDER BY
      created_at DESC`. Rows with the same creation time come in id order, one of
      the orders the query allows. */
  function ProfileItems(items: map<int, PortfolioItemRow>, profileId: int): seq<PortfolioItemRow> {
    Seqs.SortBy(ItemRows(items, Seqs.Ascending(OwnedItemIds(items, profileId))), NewerFirst)
  }

  /** The query's rows come newest first. */
  lemma ProfileItemsSorted(items: map<int, PortfolioItemRow>, profileId: int)
    ensures Seqs.Sorted(ProfileItems(items, profileId), NewerFirst)
  {
    NewerFirstTotal();
    Seqs.SortBySorted(ItemRows(items, Seqs.Ascending(OwnedItemIds(items, profileId))), NewerFirst);
  }

  /** The query returns exactly the profile's items, one row per item. */
  lemma ProfileItemsExact(items: map<int, PortfolioItemRow>, profileId: int)
    requires forall i :: i in items ==> items[i].id == i
    ensures |ProfileItems(items, profileId)| == |OwnedItemIds(items, profileId)|
    ensures forall x :: x in ProfileItems(items, profileId) <==>
              x.id in items && items[x.id] == x && x.cutterProfileId == profileId
  {
    var unsorted := ItemRows(items, Seqs.Ascending(OwnedItemIds(items, profileId)));
    Seqs.SortByMembers(unsorted, NewerFirst);
    OwnedRows(items, profileId);
  }

  /** Before sorting, the rows are those of the owned ids. */
  lemma OwnedRows(items: map<int, PortfolioItemRow>, profileId: int)
    requires forall i :: i in items ==> items[i].id == i
    ensures forall x :: x in ItemRows(items, Seqs.Ascending(OwnedItemIds(items, profileId))) <==>
              x.id in items && items[x.id] == x && x.cutterProfileId == profileId
  {
    OwnedRowsSound(items, profileId);
    OwnedRowsComplete(items, profileId);
  }

  lemma OwnedRowsSound(items: map<int, PortfolioItemRow>, profileId: int)
    requires forall i :: i in items ==> items[i].id == i
    ensures forall x :: x in ItemRows(items, Seqs.Ascending(OwnedItemIds(items, profileId))) ==>
              x.id in items && items[x.id] == x && x.cutterProfileId == profileId
  {
    var ids := Seqs.Ascending(OwnedItemIds(items, profileId));
    var rows := ItemRows(items, ids);
    forall x | x in rows ensures x.id in items && items[x.id] == x && x.cutterProfileId == profileId {
      var k :| 0 <= k < |rows| && rows[k] == x;
      assert ids[k] in OwnedItemIds(items, profileId);
    }
  }

  lemma OwnedRowsComplete(items: map<int, PortfolioItemRow>, profileId: int)
    requires forall i :: i in items ==> items[i].id == i
    ensures forall x: PortfolioItemRow :: x.id in items && items[x.id] == x && x.cutterProfileId == profileId ==>
              x in ItemRows(items, Seqs.Ascending(OwnedItemIds(items, profileId)))
  {
    var ids := Seqs.Ascending(OwnedItemIds(items, profileId));
    var rows := ItemRows(items, ids);
    forall x: PortfolioItemRow | x.id in items && items[x.id] == x && x.cutterProfileId == profileId ensures x in rows {
      assert x.id in OwnedItemIds(items, profileId);
      var k :| 0 <= k < |ids| && ids[k] == x.id;
      assert rows[k] == x;
    }
  }

  /** `getCutterPortfolio(cutterId)`. */
  function GetCutterPortfolio(db: UserModel, cutterId: int): (r: Result<seq<PortfolioItemRow>, string>)
    requires db.Valid()
    reads db
    ensures r.Err? <==> cutterId !in db.users || db.RecordOf(db.users[cutterId]).roleName != Some("cutter")
                        || cutterId !in db.cutterProfiles
    ensures r.Err? ==> r.error == if cutterId in db.users && db.RecordOf(db.users[cutterId]).roleName == Some("cutter")
                                  then CutterProfileNotFound else CutterNotFound
    ensures r.Ok? ==> r.value == ProfileItems(db.portfolioItems, db.cutterProfiles[cutterId].id)
  {
    var user := db.FindById(cutterId);
    if user.None? || user.value.roleName != Some("cutter") then Err(CutterNotFound)
    else
      var profile := db.GetCutterProfile(cutterId);
      if profile.None? then Err(CutterProfileNotFound)
      else Ok(ProfileItems(db.portfolioItems, profile.value.id))
  }

  /** `getAppraiserProfile(userId)`. */
  function GetAppraiserProfile(db: UserModel, userId: int): (r: Option<AppraiserProfileRow>)
    reads db
    ensures r.Some? <==> userId in db.appraiserProfiles
    ensures r.Some? ==> r.value == db.appraiserProfiles[userId]
  {
    if userId in db.appraiserProfiles then Some(db.appraiserProfiles[userId]) else None
  }

  // ---------------------------------------------------------------- profile views

  datatype RoleDetails =
    | CutterRole(cutter: CutterProfileRow, portfolioItems: seq<PortfolioItemRow>)
    | DealerRole(dealer: DealerProfileRow)
    | AppraiserRole(appraiser: AppraiserProfileRow)

  datatype UserProfile = UserProfile(user: UserView, profile: Option<RoleDetails>)

  /** `getUserProfile(userId)`: the public view and the profile of the user's role. */
  function GetUserProfile(db: UserModel, userId: int): (r: Result<UserProfile, string>)
    requires db.Valid()
    reads db
    ensures r.Err? <==> userId !in db.users
    ensures r.Err? ==> r.error == UserNotFound
    ensures r.Ok? ==>
              var u := db.RecordOf(db.users[userId]);
              && r.value.user == PublicView(u)
              && (r.value.profile.Some? <==>
                    (u.roleName == Some("cutter") && userId in db.cutterProfiles)
                    || (u.roleName == Some("dealer") && userId in db.dealerProfiles)
                    || (u.roleName == Some("appraiser") && userId in db.appraiserProfiles))
              && (r.value.profile.Some? && r.value.profile.value.CutterRole? ==>
                    u.roleName == Some("cutter") && userId in db.cutterProfiles
                    && r.value.profile.value.cutter == db.cutterProfiles[userId]
                    && r.value.profile.value.portfolioItems == ProfileItems(db.portfolioItems, db.cutterProfiles[userId].id))
              && (r.value.profile.Some? && r.value.profile.value.DealerRole? ==>
                    u.roleName == Some("dealer") && userId in db.dealerProfiles && r.value.profile.value.dealer == db.dealerProfiles[userId])
              && (r.value.profile.Some? && r.value.profile.value.AppraiserRole? ==>
                    u.roleName == Some("appraiser") && userId in db.appraiserProfiles && r.value.profile.value.appraiser == db.appraiserProfiles[userId])
  {
    match db.FindById(userId)
    case None => Err(UserNotFound)
    case Some(user) =>
      var details :=
        if user.roleName == Some("cutter") then
          match db.GetCutterProfile(userId)
          case None => None
          case Some(cp) => Some(CutterRole(cp, GetCutterPortfolio(db, userId).value))
        else if user.roleName == Some("dealer") then
          match db.GetDealerProfile(userId)
          case None => None
          case Some(dp) => Some(DealerRole(dp))
        else if user.roleName == Some("appraiser") then
          match GetAppraiserProfile(db, userId)
          case None => None
          case Some(ap) => Some(AppraiserRole(ap))
        else None;
      Ok(UserProfile(PublicView(user), details))
  }

  /** `updateUserProfile(userId, updateData)`: the update, then the fresh profile. */
  method UpdateUserProfile(db: UserModel, userId: int, input: UserUpdateInput, now: int) returns (r: Result<UserProfile, Failure>)
    requires db.Valid()
    modifies db
    ensures db.Valid()
    ensures old(db.RolesResolve()) ==> db.RolesResolve()
    ensures userId !in old(db.users) ==> r == Err(Fail(UserNotFound))
    ensures r.Err? ==> db.Tabled() == old(db.Tabled())
    ensures userId in old(db.users) ==>
              var row := PatchUser(old(db.users)[userId], input, UpdateRoleId(db.roles, input.role), now);
              r.Ok? <==> !old(db.Clashes(userId, row.username, row.email)) && RoleNameById(db.roles, row.roleId).Some?
    ensures r.Ok? ==>
              var row := PatchUser(old(db.users)[userId], input, UpdateRoleId(db.roles, input.role), now);
              && db.Tabled() == WithProfiles(old(db.Tabled()).(users := old(db.users)[userId := row]), old(db.next), userId, input, now)
              && GetUserProfile(db, userId).Ok? && r.value == GetUserProfile(db, userId).value
  {
    if userId !in db.users {
      r := Err(Fail(UserNotFound));
      return;
    }
    var updated := db.Update(userId, input, now);
    if updated.Err? {
      r := Err(StoreFailure(updated.error));
      return;
    }
    r := Ok(GetUserProfile(db, userId).value);
  }

  /** `changePassword(userId, currentPassword, newPassword)`. */
  method ChangePassword(db: UserModel, userId: int, currentPassword: string, newPassword: string, now: int)
    returns (r: Result<bool, Failure>)
    requires db.Valid() && db.RolesResolve()
    modifies db
    ensures db.Valid() && db.RolesResolve()
    ensures userId !in old(db.users) ==> r == Err(Fail(UserNotFound))
    ensures userId in old(db.users) && !CheckPassword(old(db.users)[userId], currentPassword)
            ==> r == Err(Fail(InvalidCurrentPassword))
    ensures r.Err? ==> db.Tabled() == old(db.Tabled())
    ensures r.Ok? <==> userId in old(db.users) && CheckPassword(old(db.users)[userId], currentPassword)
    ensures r.Ok? ==>
              && r.value && userId in db.users
              && db.Tabled() == old(db.Tabled()).(users := old(db.users)[userId := db.users[userId]])
              && db.users[userId] == old(db.users)[userId].(passwordHash := db.users[userId].passwordHash, updatedAt := now)
              && (newPassword != "" ==> Verify(newPassword, db.users[userId].passwordHash))
              && (newPassword == "" ==> db.users[userId].passwordHash == old(db.users)[userId].passwordHash)
  {
    var user := db.FindById(userId);
    if user.None? {
      r := Err(Fail(UserNotFound));
      return;
    }
    if !CheckPassword(user.value.row, currentPassword) {
      r := Err(Fail(InvalidCurrentPassword));
      return;
    }
    VerifyHash(newPassword, newPassword);
    db.UpdateFlags(userId, NoChanges.(password := Some(newPassword)), now);
    r := Ok(true);
  }

  // ---------------------------------------------------------------- portfolio writes

  /** The body of an add request; its `cutter_profile_id`, if any, is never used. */
  datatype PortfolioItemInput = PortfolioItemInput(
    cutterProfileId: Option<int>,
    title: string,
    description: JsValue<string>,
    gemstoneType: string,
    cutType: string,
    imageUrls: seq<string>)

  /** The row the INSERT creates: the owner is the caller's profile. */
  function NewItem(id: int, profileId: int, item: PortfolioItemInput, now: int): (row: PortfolioItemRow)
    ensures row.id == id && row.cutterProfileId == profileId
    ensures row.title == item.title && row.gemstoneType == item.gemstoneType && row.cutType == item.cutType
    ensures row.description == item.description.ToNullable() && row.imageUrls == item.imageUrls
  {
    PortfolioItemRow(id, profileId, item.title, item.description.ToNullable(), item.gemstoneType, item.cutType,
                     item.imageUrls, now, now)
  }

  /** The caller is a user whose stored role is 'cutter' and who has a cutter profile. */
  predicate IsCutterWithProfile(db: UserModel, userId: int)
    reads db
  {
    userId in db.users && db.RecordOf(db.users[userId]).roleName == Some("cutter") && userId in db.cutterProfiles
  }

  /** The error of the two cutter checks, given the message of the first. */
  function CutterCheck(db: UserModel, userId: int, notCutter: string): (r: Option<string>)
    requires db.Valid()
    reads db
    ensures r.None? <==> IsCutterWithProfile(db, userId)
    ensures r.Some? ==> r.value == if userId in db.users && db.RecordOf(db.users[userId]).roleName == Some("cutter")
                                   then CutterProfileNotFound else notCutter
  {
    var user := db.FindById(userId);
    if user.None? || user.value.roleName != Some("cutter") then Some(notCutter)
    else if db.GetCutterProfile(userId).None? then Some(CutterProfileNotFound)
    else None
  }

  /** `addPortfolioItem(userId, itemData)`. */
  method AddPortfolioItem(db: UserModel, userId: int, item: PortfolioItemInput, now: int) returns (r: Result<PortfolioItemRow, Failure>)
    requires db.Valid()
    modifies db
    ensures db.Valid()
    ensures r.Err? <==> !old(IsCutterWithProfile(db, userId))
    ensures r.Err? ==> r == Err(Fail(old(CutterCheck(db, userId, OnlyCuttersAdd)).value)) && db.Tabled() == old(db.Tabled())
    ensures r.Ok? ==>
              && r.value == NewItem(old(db.next.item), old(db.cutterProfiles)[userId].id, item, now)
              && old(db.next.item) !in old(db.portfolioItems)
              && db.Tabled() == old(db.Tabled()).(portfolioItems := old(db.portfolioItems)[old(db.next.item) := r.value])
    ensures db.users == old(db.users)
  {
    var check := CutterCheck(db, userId, OnlyCuttersAdd);
    if check.Some? {
      r := Err(Fail(check.value));
      return;
    }
    var profile := db.cutterProfiles[userId];
    var id := db.next.item;
    var row := NewItem(id, profile.id, item, now);
    assert profile.id in db.CutterProfileIds();
    db.portfolioItems := db.portfolioItems[id := row];
    db.next := db.next.(item := id + 1);
    r := Ok(row);
  }

  /** The body of an update request: every field may be missing. */
  datatype PortfolioItemPatch = PortfolioItemPatch(
    title: Option<string>,
    description: JsValue<string>,
    gemstoneType: Option<string>,
    cutType: Option<string>,
    imageUrls: Option<seq<string>>)

  datatype ItemColumn = ItemId | ItemOwner | Title | Description | GemstoneType | CutType | ImageUrls | ItemUpdatedAt

  function ArrayOr(r: Rhs, current: seq<string>): seq<string> {
    if r.Value? && r.value.STextArray? then r.value.items else current
  }

  /** The effect of an `UPDATE cutter_portfolio_items SET …` statement on one row. */
  function ApplyItem(row: PortfolioItemRow, st: Statement<ItemColumn>, now: int): PortfolioItemRow {
    var a, v := st.assignments, st.values;
    row.(title := TextOr(RhsOf(a, v, Title), row.title),
         description := NullableTextOr(RhsOf(a, v, Description), row.description),
         gemstoneType := TextOr(RhsOf(a, v, GemstoneType), row.gemstoneType),
         cutType := TextOr(RhsOf(a, v, CutType), row.cutType),
         imageUrls := ArrayOr(RhsOf(a, v, ImageUrls), row.imageUrls),
         updatedAt := TimestampOr(RhsOf(a, v, ItemUpdatedAt), row.updatedAt, now))
  }

  /** What `updatePortfolioItem` promises for the item: each field that is
      present is replaced, `updated_at` is refreshed, and nothing else changes. */
  function PatchItem(row: PortfolioItemRow, p: PortfolioItemPatch, now: int): PortfolioItemRow {
    row.(title := p.title.GetOr(row.title),
         description := if p.description.IsDefined() then p.description.ToNullable() else row.description,
         gemstoneType := p.gemstoneType.GetOr(row.gemstoneType),
         cutType := p.cutType.GetOr(row.cutType),
         imageUrls := p.imageUrls.GetOr(row.imageUrls),
         updatedAt := now)
  }

  /** The patch never moves an item to another owner nor changes its id or creation time. */
  lemma PatchItemKeeps(row: PortfolioItemRow, p: PortfolioItemPatch, now: int)
    ensures var r := PatchItem(row, p, now);
            r.id == row.id && r.cutterProfileId == row.cutterProfileId && r.createdAt == row.createdAt && r.updatedAt == now
  {
  }

  function ItemRank(c: ItemColumn): nat {
    match c
    case Title => 1
    case Description => 2
    case GemstoneType => 3
    case CutType => 4
    case ImageUrls => 5
    case ItemUpdatedAt => 6
    case ItemId => 7
    case ItemOwner => 8
  }

  function ItemRhs(p: PortfolioItemPatch, c: ItemColumn): Rhs {
    match c
    case Title => if p.title.Some? then Value(SText(p.title.GetOr(""))) else Keep
    case Description => if p.description.IsDefined() then Value(NullableText(p.description.ToNullable())) else Keep
    case GemstoneType => if p.gemstoneType.Some? then Value(SText(p.gemstoneType.GetOr(""))) else Keep
    case CutType => if p.cutType.Some? then Value(SText(p.cutType.GetOr(""))) else Keep
    case ImageUrls => if p.imageUrls.Some? then Value(STextArray(p.imageUrls.GetOr([]))) else Keep
    case ItemUpdatedAt => Now
    case ItemId => Keep
    case ItemOwner => Keep
  }

  lemma ApplyItemPatch(row: PortfolioItemRow, st: Statement<ItemColumn>, p: PortfolioItemPatch, now: int)
    requires forall c :: RhsOf(st.assignments, st.values, c) == ItemRhs(p, c)
    ensures ApplyItem(row, st, now) == PatchItem(row, p, now)
  {
    assert RhsOf(st.assignments, st.values, Title) == ItemRhs(p, Title);
    assert RhsOf(st.assignments, st.values, Description) == ItemRhs(p, Description);
    assert RhsOf(st.assignments, st.values, GemstoneType) == ItemRhs(p, GemstoneType);
    assert RhsOf(st.assignments, st.values, CutType) == ItemRhs(p, CutType);
    assert RhsOf(st.assignments, st.values, ImageUrls) == ItemRhs(p, ImageUrls);
    assert RhsOf(st.assignments, st.values, ItemUpdatedAt) == ItemRhs(p, ItemUpdatedAt);
  }

  /** The `if (itemData.x !== undefined)` blocks, in source order. */
  function ItemFields(p: PortfolioItemPatch): seq<Field<ItemColumn>> {
    [ Field(Title, p.title.Some?, SText(p.title.GetOr(""))),
      Field(Description, p.description.IsDefined(), NullableText(p.description.ToNullable())),
      Field(GemstoneType, p.gemstoneType.Some?, SText(p.gemstoneType.GetOr(""))),
      Field(CutType, p.cutType.Some?, SText(p.cutType.GetOr(""))),
      Field(ImageUrls, p.imageUrls.Some?, STextArray(p.imageUrls.GetOr([]))) ]
  }

  lemma ItemFieldsMeaning(p: PortfolioItemPatch)
    ensures forall c :: c != ItemUpdatedAt ==> LastFor(ItemFields(p), c) == ItemRhs(p, c)
  {
    var fs := ItemFields(p);
    assert forall k :: 0 <= k < |fs| ==> ItemRank(fs[k].column) == k + 1;
    forall c | c != ItemUpdatedAt ensures LastFor(fs, c) == ItemRhs(p, c) {
      if c == ItemId || c == ItemOwner {
        LastForAbsent(fs, c);
      } else {
        LastForAt(fs, ItemRank(c) - 1);
      }
    }
  }

  /** The columns of an item row as the WHERE clause compares them. */
  function ItemKeyColumns(row: PortfolioItemRow): ItemColumn -> SqlValue {
    c => if c == ItemId then SInt(row.id) else if c == ItemOwner then SInt(row.cutterProfileId) else SNull
  }

  /** `UPDATE cutter_portfolio_items SET … WHERE id = $n AND cutter_profile_id = $n+1`:
      the blocks, then `updated_at`, then the two keys, which select exactly
      the caller's item. */
  method BuildItemUpdate(itemId: int, profileId: int, p: PortfolioItemPatch) returns (st: Statement<ItemColumn>)
    ensures WellFormed(st)
    ensures |st.where| == 2 && st.where[0].column == ItemId && st.where[1].column == ItemOwner
    ensures forall row :: Targets(st, ItemKeyColumns(row)) <==> row.id == itemId && row.cutterProfileId == profileId
    ensures forall row, now :: ApplyItem(row, st, now) == PatchItem(row, p, now)
  {
    var b := SetList(ItemFields(p));
    b := b.PushNow(ItemUpdatedAt);
    st := b.Where([ItemId, ItemOwner], [SInt(itemId), SInt(profileId)]);
    ItemFieldsMeaning(p);
    assert forall c :: RhsOf(st.assignments, st.values, c) == ItemRhs(p, c);
    forall row, now ensures ApplyItem(row, st, now) == PatchItem(row, p, now) {
      ApplyItemPatch(row, st, p, now);
    }
    var n := |b.values|;
    assert st.values[n] == SInt(itemId) && st.values[n + 1] == SInt(profileId);
    forall row ensures Targets(st, ItemKeyColumns(row)) <==> row.id == itemId && row.cutterProfileId == profileId {
      assert st.where[0] == Condition(ItemId, n + 1) && st.where[1] == Condition(ItemOwner, n + 2);
    }
  }

  /** The item `itemId` exists and belongs to cutter profile `profileId`. */
  predicate Owns(items: map<int, PortfolioItemRow>, profileId: int, itemId: int) {
    itemId in items && items[itemId].cutterProfileId == profileId
  }

  /** `updatePortfolioItem(userId, itemId, itemData)`. */
  method UpdatePortfolioItem(db: UserModel, userId: int, itemId: int, p: PortfolioItemPatch, now: int)
    returns (r: Result<PortfolioItemRow, Failure>)
    requires db.Valid()
    modifies db
    ensures db.Valid()
    ensures !old(IsCutterWithProfile(db, userId)) ==> r == Err(Fail(old(CutterCheck(db, userId, OnlyCuttersUpdate)).value))
    ensures old(IsCutterWithProfile(db, userId)) && !Owns(old(db.portfolioItems), old(db.cutterProfiles)[userId].id, itemId)
            ==> r == Err(Fail(ItemNotOwned))
    ensures r.Err? ==> db.Tabled() == old(db.Tabled())
    ensures r.Ok? <==> old(IsCutterWithProfile(db, userId)) && Owns(old(db.portfolioItems), old(db.cutterProfiles)[userId].id, itemId)
    ensures r.Ok? ==>
              && r.value == PatchItem(old(db.portfolioItems)[itemId], p, now)
              && db.Tabled() == old(db.Tabled()).(portfolioItems := old(db.portfolioItems)[itemId := r.value])
    ensures db.users == old(db.users) && db.next == old(db.next)
  {
    var check := CutterCheck(db, userId, OnlyCuttersUpdate);
    if check.Some? {
      r := Err(Fail(check.value));
      return;
    }
    var profileId := db.cutterProfiles[userId].id;
    if !Owns(db.portfolioItems, profileId, itemId) {
      r := Err(Fail(ItemNotOwned));
      return;
    }
    var st := BuildItemUpdate(itemId, profileId, p);
    var current := db.portfolioItems[itemId];
    assert Targets(st, ItemKeyColumns(current));
    var row := ApplyItem(current, st, now);
    PatchItemKeeps(current, p, now);
    db.portfolioItems := db.portfolioItems[itemId := row];
    r := Ok(row);
  }

  /** `deletePortfolioItem(userId, itemId)`: only the caller's own item goes. */
  method DeletePortfolioItem(db: UserModel, userId: int, itemId: int) returns (r: Result<bool, Failure>)
    requires db.Valid()
    modifies db
    ensures db.Valid()
    ensures !old(IsCutterWithProfile(db, userId)) ==> r == Err(Fail(old(CutterCheck(db, userId, OnlyCuttersDelete)).value))
    ensures old(IsCutterWithProfile(db, userId)) && !Owns(old(db.portfolioItems), old(db.cutterProfiles)[userId].id, itemId)
            ==> r == Err(Fail(ItemNotOwned))
    ensures r.Err? ==> db.Tabled() == old(db.Tabled())
    ensures r.Ok? <==> old(IsCutterWithProfile(db, userId)) && Owns(old(db.portfolioItems), old(db.cutterProfiles)[userId].id, itemId)
    ensures r.Ok? ==> r.value && db.Tabled() == old(db.Tabled()).(portfolioItems := old(db.portfolioItems) - {itemId})
    ensures db.users == old(db.users) && db.next == old(db.next)
  {
    var check := CutterCheck(db, userId, OnlyCuttersDelete);
    if check.Some? {
      r := Err(Fail(check.value));
      return;
    }
    var profileId := db.cutterProfiles[userId].id;
    if !Owns(db.portfolioItems, profileId, itemId) {
      r := Err(Fail(ItemNotOwned));
      return;
    }
    db.portfolioItems := db.portfolioItems - {itemId};
    r := Ok(true);
  }

  // ---------------------------------------------------------------- cutter listings

  /** One entry of `getAllCutters`: no e-mail. */
  datatype CutterSummary = CutterSummary(
    id: int,
    username: string,
    firstName: Option<string>,
    lastName: Option<string>,
    profileImage: Option<string>,
    specialty: Option<string>,
    experienceYears: Option<int>,
    expertise: Option<string>,
    workshopLocation: Option<string>,
    availableForCustomWork: Option<bool>,
    portfolioVerified: bool)

  function Summary(c: CutterListingRow): CutterSummary {
    CutterSummary(c.id, c.username, c.firstName, c.lastName, c.profileImageUrl, c.profile.specialty,
                  c.profile.experienceYears, c.profile.expertiseLevel, c.profile.workshopLocation,
                  c.profile.availableForCustomWork, c.profile.portfolioVerified)
  }

  /** `cutters.map(…)`: one summary per row, in the same order. */
  function Summaries(rows: seq<CutterListingRow>): (r: seq<CutterSummary>)
    ensures |r| == |rows|
    ensures forall i :: 0 <= i < |rows| ==> r[i] == Summary(rows[i])
  {
    if rows == [] then [] else [Summary(rows[0])] + Summaries(rows[1..])
  }

  /** `getAllCutters()`: the listed cutters by ascending user id, each summarised. */
  function GetAllCutters(db: UserModel): (r: seq<CutterSummary>)
    requires db.Valid()
    reads db
    ensures |r| == |CutterListing(db.users, db.cutterProfiles, db.roles)|
    ensures forall i :: 0 <= i < |r| ==>
              ListedCutter(db.users, db.cutterProfiles, db.roles, r[i].id)
              && r[i] == Summary(ListingRow(db.users[r[i].id], db.cutterProfiles[r[i].id]))
    ensures forall i, j :: 0 <= i < j < |r| ==> r[i].id < r[j].id
  {
    Summaries(CutterListing(db.users, db.cutterProfiles, db.roles))
  }

  /** The profile part of `getCutterDetails`. */
  datatype CutterProfileView = CutterProfileView(
    specialty: Option<string>,
    experienceYears: Option<int>,
    certifications: Option<seq<string>>,
    bio: Option<string>,
    workshopLocation: Option<string>,
    expertiseLevel: Option<string>,
    availableForCustomWork: Option<bool>,
    portfolioVerified: bool,
    toolsUsed: Option<string>)

  datatype CutterDetails = CutterDetails(
    id: int,
    username: string,
    firstName: Option<string>,
    lastName: Option<string>,
    profileImage: Option<string>,
    profile: CutterProfileView,
    skills: seq<SkillRow>,
    portfolio: seq<PortfolioItemRow>)

  function ProfileView(cp: CutterProfileRow): CutterProfileView {
    CutterProfileView(cp.specialty, cp.experienceYears, cp.certification, cp.bio, cp.workshopLocation,
                      cp.expertiseLevel, cp.availableForCustomWork, cp.portfolioVerified, cp.toolsUsed)
  }

  function SkillOf(profileId: int): SkillRow -> bool {
    (s: SkillRow) => s.cutterProfileId == profileId
  }

  /** `getCutterDetails(cutterId)`: nothing, rather than an error, for anyone
      but a cutter with a profile. */
  function GetCutterDetails(db: UserModel, cutterId: int): (r: Option<CutterDetails>)
    requires db.Valid()
    reads db
    ensures r.Some? <==> IsCutterWithProfile(db, cutterId)
    ensures r.Some? ==>
              var u, cp := db.users[cutterId], db.cutterProfiles[cutterId];
              && r.value.id == cutterId && r.value.username == u.username
              && r.value.firstName == u.firstName && r.value.lastName == u.lastName
              && r.value.profileImage == u.profileImageUrl
              && r.value.profile == ProfileView(cp)
              && r.value.skills == Seqs.Filter(db.skills, SkillOf(cp.id))
              && r.value.portfolio == ProfileItems(db.portfolioItems, cp.id)
  {
    match db.FindById(cutterId)
    case None => None
    case Some(user) =>
      if user.roleName != Some("cutter") then None
      else match db.GetCutterProfile(cutterId)
        case None => None
        case Some(cp) =>
          var portfolio := GetCutterPortfolio(db, cutterId).value;
          Some(CutterDetails(user.row.id, user.row.username, user.row.firstName, user.row.lastName,
                             user.row.profileImageUrl, ProfileView(cp), Seqs.Filter(db.skills, SkillOf(cp.id)), portfolio))
  }
}
