/**
 * `Campaigns.create_or_update_campaign_group_items`
 * (products_report_generator_api/views.py): saving the group sets of a
 * global campaign, the groups of each group set and the Direct campaigns of
 * each group from one nested payload.
 *
 * At every level the stored children that the payload does not mention by a
 * (truthy) id are deleted first; then each payload entry is checked for a
 * name clash with a sibling, loaded by id (404 when missing) or created, and
 * saved under its parent. The three tables are maps from primary key to row;
 * new rows take the next value of their table's key sequence.
 *
 * The pure functions `Apply*` and `Reconcile` are the specification; the
 * class `ItemStore` holds the tables and does the same work with loops.
 */
module CampaignItems {
  import opened Common
  import opened Serializers

  datatype GroupSetRow = GroupSetRow(campaignId: int, serialNumber: int, name: string)
  datatype GroupRow = GroupRow(groupSetId: int, serialNumber: int, name: string)
  datatype YdCampaignRow = YdCampaignRow(serialNumber: int, name: string, ydCampaignId: int, groupId: Option<int>)

  /** The three tables and the next key of each. */
  datatype Items = Items(
    groupSets: map<int, GroupSetRow>,
    groups: map<int, GroupRow>,
    ydCampaigns: map<int, YdCampaignRow>,
    nextGroupSetId: int,
    nextGroupId: int,
    nextYdCampaignId: int)

  /**
   * Keys are positive (key sequences start at 1) and below their sequence's
   * next value, and every reference to a group or group set names an id
   * already handed out.
   */
  ghost predicate ValidItems(db: Items)
  {
    && 1 <= db.nextGroupSetId && 1 <= db.nextGroupId
    && (forall k :: k in db.groupSets ==> 1 <= k < db.nextGroupSetId)
    && (forall k :: k in db.groups ==> 1 <= k < db.nextGroupId && db.groups[k].groupSetId < db.nextGroupSetId)
    && (forall k :: k in db.ydCampaigns ==> k < db.nextYdCampaignId)
    && (forall k :: k in db.ydCampaigns && db.ydCampaigns[k].groupId.Some? ==>
          db.ydCampaigns[k].groupId.value < db.nextGroupId)
  }

  /** Why saving stopped: a 409 name clash, or a 404 for an id that is not stored. */
  datatype ItemError =
    | GroupSetNameTaken(name: string)
    | GroupNameTaken(name: string, groupSetName: string)
    | NotFound(model: string)

  function ErrorStatus(e: ItemError): (r: int)
    ensures r == 404 <==> e.NotFound?
    ensures r == 409 <==> !e.NotFound?
  {
    if e.NotFound? then 404 else 409
  }

  /** The `message` of a 409 response (a 404 carries the framework's own body). */
  function ConflictMessage(e: ItemError): string
    requires !e.NotFound?
  {
    match e
    case GroupSetNameTaken(name) => "Набор групп с наименованием '" + name + "' уже существует для данной кампании."
    case GroupNameTaken(name, setName) => "Группа с наименованием '" + name + "' уже существует в наборе групп '" + setName + "'."
  }

  function SuccessMessage(update: bool): string
  {
    "Глобальная кампания успешно " + (if update then "обновлена" else "создана") + "."
  }

  // ---------------------------------------------------------------------
  // Children and sent ids
  // ---------------------------------------------------------------------

  ghost function YdCampaignsOf(db: Items, groupId: int): set<int>
  {
    set j | j in db.ydCampaigns && db.ydCampaigns[j].groupId == Some(groupId)
  }

  ghost function GroupsOf(db: Items, groupSetId: int): set<int>
  {
    set k | k in db.groups && db.groups[k].groupSetId == groupSetId
  }

  /** `campaign_obj.groupsets_set.all()` as a set of keys. */
  function GroupSetsOf(db: Items, campaignId: int): set<int>
  {
    set k | k in db.groupSets && db.groupSets[k].campaignId == campaignId
  }

  /** The keys the sequences hand out while `lo` grows to `hi`. */
  ghost function NewIds(lo: int, hi: int): (r: set<int>)
    ensures forall j :: j in r <==> lo <= j < hi
    decreases hi - lo
  {
    if hi <= lo then {} else {lo} + NewIds(lo + 1, hi)
  }

  /** The truthy `campaign_id`s of `cs[from..]`. */
  function YdCampaignIdsFrom(cs: seq<YdCampaignPayload>, from: nat): set<int>
    requires from <= |cs|
    decreases |cs| - from
  {
    if from == |cs| then {}
    else (if TruthyId(cs[from].campaignId) then {cs[from].campaignId.value} else {}) + YdCampaignIdsFrom(cs, from + 1)
  }

  function GroupIdsFrom(gs: seq<GroupPayload>, from: nat): set<int>
    requires from <= |gs|
    decreases |gs| - from
  {
    if from == |gs| then {}
    else (if TruthyId(gs[from].groupId) then {gs[from].groupId.value} else {}) + GroupIdsFrom(gs, from + 1)
  }

  function GroupSetIdsFrom(sets: seq<GroupSetPayload>, from: nat): set<int>
    requires from <= |sets|
    decreases |sets| - from
  {
    if from == |sets| then {}
    else (if TruthyId(sets[from].groupSetId) then {sets[from].groupSetId.value} else {}) + GroupSetIdsFrom(sets, from + 1)
  }

  /** An id is "sent" exactly when some entry carries it and it is truthy; null entries add nothing. */
  lemma {:induction false} SentGroupSetIdsExactly(sets: seq<GroupSetPayload>, from: nat, k: int)
    requires from <= |sets|
    ensures k in GroupSetIdsFrom(sets, from) <==> k != 0 && exists i :: from <= i < |sets| && sets[i].groupSetId == Some(k)
    decreases |sets| - from
  {
    if from < |sets| {
      SentGroupSetIdsExactly(sets, from + 1, k);
      if sets[from].groupSetId == Some(k) && k != 0 {
        assert k in GroupSetIdsFrom(sets, from);
      }
    }
  }

  // ---------------------------------------------------------------------
  // Deleting the children that were not sent back
  // ---------------------------------------------------------------------

  /** Delete the Direct campaigns of `groupId` whose ids are not in `keep`. */
  function WithoutYdCampaigns(db: Items, groupId: int, keep: set<int>): (r: Items)
    ensures YdCampaignsOf(r, groupId) == YdCampaignsOf(db, groupId) * keep
    ensures forall j :: j in r.ydCampaigns ==> j in db.ydCampaigns && r.ydCampaigns[j] == db.ydCampaigns[j]
    ensures forall j :: j in db.ydCampaigns && j !in YdCampaignsOf(db, groupId) - keep ==> j in r.ydCampaigns
    ensures r == db.(ydCampaigns := r.ydCampaigns)
  {
    db.(ydCampaigns := map j | j in db.ydCampaigns && (db.ydCampaigns[j].groupId != Some(groupId) || j in keep)
                             :: db.ydCampaigns[j])
  }

  /** Delete the groups of `groupSetId` whose ids are not in `keep`. */
  function WithoutGroups(db: Items, groupSetId: int, keep: set<int>): (r: Items)
    ensures GroupsOf(r, groupSetId) == GroupsOf(db, groupSetId) * keep
    ensures forall k :: k in r.groups ==> k in db.groups && r.groups[k] == db.groups[k]
    ensures forall k :: k in db.groups && k !in GroupsOf(db, groupSetId) - keep ==> k in r.groups
    ensures r == db.(groups := r.groups)
  {
    db.(groups := map k | k in db.groups && (db.groups[k].groupSetId != groupSetId || k in keep) :: db.groups[k])
  }

  /** Delete the group sets with the given ids. */
  function WithoutGroupSets(db: Items, ids: set<int>): (r: Items)
    ensures forall k :: k in r.groupSets <==> k in db.groupSets && k !in ids
    ensures forall k :: k in r.groupSets ==> r.groupSets[k] == db.groupSets[k]
    ensures r == db.(groupSets := r.groupSets)
  {
    db.(groupSets := map k | k in db.groupSets && k !in ids :: db.groupSets[k])
  }

  // ---------------------------------------------------------------------
  // The specification, level by level
  // ---------------------------------------------------------------------

  /** Only the Direct campaign table moved. */
  predicate YdCampaignsOnly(a: Items, b: Items)
  {
    a.groupSets == b.groupSets && a.groups == b.groups && a.nextGroupSetId == b.nextGroupSetId && a.nextGroupId == b.nextGroupId
  }

  /** The group set table did not move. */
  predicate GroupSetsKept(a: Items, b: Items)
  {
    a.groupSets == b.groupSets && a.nextGroupSetId == b.nextGroupSetId
  }

  /** Save one Direct campaign under `groupId`: update the stored row by id, or insert a new one. */
  function ApplyYdCampaign(db: Items, groupId: int, c: YdCampaignPayload): (r: Result<Items, ItemError>)
    ensures r.Ok? ==> YdCampaignsOnly(db, r.value)
    ensures r.Err? <==> TruthyId(c.campaignId) && c.campaignId.value !in db.ydCampaigns
  {
    var row := YdCampaignRow(c.serialNumber, c.campaignName, c.ydCampaignId, Some(groupId));
    if TruthyId(c.campaignId) then
      if c.campaignId.value in db.ydCampaigns then Ok(db.(ydCampaigns := db.ydCampaigns[c.campaignId.value := row]))
      else Err(NotFound("YdCampaign"))
    else
      Ok(db.(ydCampaigns := db.ydCampaigns[db.nextYdCampaignId := row], nextYdCampaignId := db.nextYdCampaignId + 1))
  }

  /** Save `cs[from..]` in order, stopping at the first missing id. */
  function ApplyYdCampaigns(db: Items, groupId: int, cs: seq<YdCampaignPayload>, from: nat): (r: Result<Items, ItemError>)
    requires from <= |cs|
    ensures r.Ok? ==> YdCampaignsOnly(db, r.value)
    ensures r.Err? ==> r.error == NotFound("YdCampaign")
    decreases |cs| - from
  {
    if from == |cs| then Ok(db)
    else
      match ApplyYdCampaign(db, groupId, cs[from])
      case Err(e) => Err(e)
      case Ok(next) => ApplyYdCampaigns(next, groupId, cs, from + 1)
  }

  /** `CampaignGroup.objects.filter(group_set=..., name=...).exclude(pk=exclude).exists()`; excluding None excludes nothing. */
  predicate GroupNameTakenIn(db: Items, groupSetId: int, name: string, exclude: Option<int>)
  {
    exists k :: k in db.groups && db.groups[k].groupSetId == groupSetId && db.groups[k].name == name && exclude != Some(k)
  }

  /** `GroupSets.objects.filter(global_campaign=..., name=...).exclude(pk=exclude).exists()` */
  predicate GroupSetNameTakenIn(db: Items, campaignId: int, name: string, exclude: Option<int>)
  {
    exists k :: k in db.groupSets && db.groupSets[k].campaignId == campaignId && db.groupSets[k].name == name && exclude != Some(k)
  }

  /** The key a payload group is saved under: its own id when truthy, the next key otherwise. */
  function GroupKey(db: Items, g: GroupPayload): int
  {
    if TruthyId(g.groupId) then g.groupId.value else db.nextGroupId
  }

  function GroupSetKey(db: Items, s: GroupSetPayload): int
  {
    if TruthyId(s.groupSetId) then s.groupSetId.value else db.nextGroupSetId
  }

  /**
   * Save one group of the group set `groupSetId` (named `groupSetName`): the
   * name check, then the stored group's unsent Direct campaigns are deleted,
   * the group row is written, and its Direct campaigns are saved.
   */
  function ApplyGroup(db: Items, groupSetId: int, groupSetName: string, g: GroupPayload): (r: Result<Items, ItemError>)
    ensures r.Ok? ==> GroupSetsKept(db, r.value)
    ensures (r.Err? && r.error.GroupNameTaken?) <==> GroupNameTakenIn(db, groupSetId, g.name, g.groupId)
    ensures r.Err? && r.error.GroupNameTaken? ==> r.error == GroupNameTaken(g.name, groupSetName)
    ensures r.Err? ==> !r.error.GroupSetNameTaken?
  {
    var row := GroupRow(groupSetId, g.serialNumber, g.name);
    if GroupNameTakenIn(db, groupSetId, g.name, g.groupId) then Err(GroupNameTaken(g.name, groupSetName))
    else if TruthyId(g.groupId) then
      var id := g.groupId.value;
      if id !in db.groups then Err(NotFound("CampaignGroup"))
      else
        var pruned := WithoutYdCampaigns(db, id, YdCampaignIdsFrom(g.campaigns, 0));
        ApplyYdCampaigns(pruned.(groups := pruned.groups[id := row]), id, g.campaigns, 0)
    else
      var id := db.nextGroupId;
      ApplyYdCampaigns(db.(groups := db.groups[id := row], nextGroupId := id + 1), id, g.campaigns, 0)
  }

  function ApplyGroups(db: Items, groupSetId: int, groupSetName: string, gs: seq<GroupPayload>, from: nat)
    : (r: Result<Items, ItemError>)
    requires from <= |gs|
    ensures r.Ok? ==> GroupSetsKept(db, r.value)
    ensures r.Err? ==> !r.error.GroupSetNameTaken?
    decreases |gs| - from
  {
    if from == |gs| then Ok(db)
    else
      match ApplyGroup(db, groupSetId, groupSetName, gs[from])
      case Err(e) => Err(e)
      case Ok(next) => ApplyGroups(next, groupSetId, groupSetName, gs, from + 1)
  }

  /**
   * Save one group set of `campaignId`: the name check, then the stored set's
   * unsent groups are deleted, the set row is written, and its groups saved.
   */
  function ApplyGroupSet(db: Items, campaignId: int, s: GroupSetPayload): (r: Result<Items, ItemError>)
    ensures (r.Err? && r.error.GroupSetNameTaken?) <==> GroupSetNameTakenIn(db, campaignId, s.name, s.groupSetId)
    ensures r.Err? && r.error.GroupSetNameTaken? ==> r.error == GroupSetNameTaken(s.name)
    ensures r.Ok? ==> db.groupSets.Keys <= r.value.groupSets.Keys && db.nextGroupSetId <= r.value.nextGroupSetId
  {
    var row := GroupSetRow(campaignId, s.serialNumber, s.name);
    if GroupSetNameTakenIn(db, campaignId, s.name, s.groupSetId) then Err(GroupSetNameTaken(s.name))
    else if TruthyId(s.groupSetId) then
      var id := s.groupSetId.value;
      if id !in db.groupSets then Err(NotFound("GroupSets"))
      else
        var pruned := WithoutGroups(db, id, GroupIdsFrom(s.groups, 0));
        ApplyGroups(pruned.(groupSets := pruned.groupSets[id := row]), id, s.name, s.groups, 0)
    else
      var id := db.nextGroupSetId;
      ApplyGroups(db.(groupSets := db.groupSets[id := row], nextGroupSetId := id + 1), id, s.name, s.groups, 0)
  }

  /**
   * Save `sets[from..]` in order, stopping at the first failure; a name
   * clash names one of the sent group sets, and no stored group set is lost.
   */
  function ApplyGroupSets(db: Items, campaignId: int, sets: seq<GroupSetPayload>, from: nat)
    : (r: Result<Items, ItemError>)
    requires from <= |sets|
    ensures r.Err? && r.error.GroupSetNameTaken? ==>
              exists i :: from <= i < |sets| && r.error == GroupSetNameTaken(sets[i].name)
    ensures r.Ok? ==> db.groupSets.Keys <= r.value.groupSets.Keys && db.nextGroupSetId <= r.value.nextGroupSetId
    decreases |sets| - from
  {
    if from == |sets| then Ok(db)
    else
      match ApplyGroupSet(db, campaignId, sets[from])
      case Err(e) => Err(e)
      case Ok(next) => ApplyGroupSets(next, campaignId, sets, from + 1)
  }

  /** The group sets of the campaign that the payload does not name by id. */
  function StaleGroupSets(db: Items, campaignId: int, sets: seq<GroupSetPayload>): (r: set<int>)
    ensures forall k :: k in r <==> k in GroupSetsOf(db, campaignId) && k !in GroupSetIdsFrom(sets, 0)
  {
    GroupSetsOf(db, campaignId) - GroupSetIdsFrom(sets, 0)
  }

  /**
   * The whole save: delete the stale group sets, then save every group set
   * in order. On success only the stale group sets are gone; a name clash
   * names one of the sent group sets.
   */
  function Reconcile(db: Items, campaignId: int, sets: seq<GroupSetPayload>): (r: Result<Items, ItemError>)
    ensures r.Err? && r.error.GroupSetNameTaken? ==>
              exists i :: 0 <= i < |sets| && r.error == GroupSetNameTaken(sets[i].name)
    ensures r.Ok? ==> forall k :: k in db.groupSets && k !in StaleGroupSets(db, campaignId, sets) ==> k in r.value.groupSets
    ensures r.Ok? ==> db.nextGroupSetId <= r.value.nextGroupSetId
  {
    ApplyGroupSets(WithoutGroupSets(db, StaleGroupSets(db, campaignId, sets)), campaignId, sets, 0)
  }

  // ---------------------------------------------------------------------
  // What a successful save leaves behind
  // ---------------------------------------------------------------------

  lemma NewIdsSplit(lo: int, mid: int, hi: int)
    requires lo <= mid <= hi
    ensures NewIds(lo, hi) == NewIds(lo, mid) + NewIds(mid, hi)
  {
  }

  lemma NewIdsOne(lo: int)
    ensures NewIds(lo, lo + 1) == {lo}
  {
    assert lo in NewIds(lo, lo + 1);
  }

  /** One Direct campaign saved: it joins the group, and nothing else leaves or joins. */
  lemma YdCampaignStep(db: Items, groupId: int, c: YdCampaignPayload)
    requires ValidItems(db) && groupId < db.nextGroupId
    requires ApplyYdCampaign(db, groupId, c).Ok?
    ensures var after := ApplyYdCampaign(db, groupId, c).value;
      && ValidItems(after)
      && after.nextYdCampaignId == db.nextYdCampaignId + (if TruthyId(c.campaignId) then 0 else 1)
      && YdCampaignsOf(after, groupId) ==
         YdCampaignsOf(db, groupId) + {if TruthyId(c.campaignId) then c.campaignId.value else db.nextYdCampaignId}
  {
  }

  /**
   * Saving `cs[from..]` adds to the group exactly the sent ids and the newly
   * created rows.
   */
  lemma {:induction false} YdCampaignsLoop(db: Items, groupId: int, cs: seq<YdCampaignPayload>, from: nat)
    requires from <= |cs|
    requires ValidItems(db) && groupId < db.nextGroupId
    requires ApplyYdCampaigns(db, groupId, cs, from).Ok?
    ensures var after := ApplyYdCampaigns(db, groupId, cs, from).value;
      && ValidItems(after)
      && db.nextYdCampaignId <= after.nextYdCampaignId
      && YdCampaignsOf(after, groupId) ==
         YdCampaignsOf(db, groupId) + YdCampaignIdsFrom(cs, from) + NewIds(db.nextYdCampaignId, after.nextYdCampaignId)
    decreases |cs| - from
  {
    if from == |cs| {
      assert NewIds(db.nextYdCampaignId, db.nextYdCampaignId) == {};
    } else {
      var mid := ApplyYdCampaign(db, groupId, cs[from]).value;
      YdCampaignStep(db, groupId, cs[from]);
      YdCampaignsLoop(mid, groupId, cs, from + 1);
      var after := ApplyYdCampaigns(db, groupId, cs, from).value;
      assert after == ApplyYdCampaigns(mid, groupId, cs, from + 1).value;
      NewIdsSplit(db.nextYdCampaignId, mid.nextYdCampaignId, after.nextYdCampaignId);
      if !TruthyId(cs[from].campaignId) {
        NewIdsOne(db.nextYdCampaignId);
      }
    }
  }

  /**
   * Saving a group leaves it, under its key, in the group set, and its Direct
   * campaigns are then exactly the ids sent for it plus the rows created for
   * it: a stored Direct campaign it did not send back is gone, one it sent is
   * kept, and an entry with a null id only adds a row.
   */
  lemma GroupSaved(db: Items, groupSetId: int, groupSetName: string, g: GroupPayload)
    requires ValidItems(db) && groupSetId < db.nextGroupSetId
    requires ApplyGroup(db, groupSetId, groupSetName, g).Ok?
    ensures var after := ApplyGroup(db, groupSetId, groupSetName, g).value;
      var key := GroupKey(db, g);
      && ValidItems(after)
      && db.nextYdCampaignId <= after.nextYdCampaignId
      && YdCampaignsOf(after, key) == YdCampaignIdsFrom(g.campaigns, 0) + NewIds(db.nextYdCampaignId, after.nextYdCampaignId)
      && after.groups == db.groups[key := GroupRow(groupSetId, g.serialNumber, g.name)]
      && after.nextGroupId == db.nextGroupId + (if TruthyId(g.groupId) then 0 else 1)
  {
    var row := GroupRow(groupSetId, g.serialNumber, g.name);
    var key := GroupKey(db, g);
    if TruthyId(g.groupId) {
      var pruned := WithoutYdCampaigns(db, key, YdCampaignIdsFrom(g.campaigns, 0));
      var start := pruned.(groups := pruned.groups[key := row]);
      assert YdCampaignsOf(start, key) == YdCampaignsOf(pruned, key);
      YdCampaignsLoop(start, key, g.campaigns, 0);
    } else {
      var start := db.(groups := db.groups[key := row], nextGroupId := key + 1);
      assert forall j :: j in start.ydCampaigns ==> start.ydCampaigns[j].groupId != Some(key);
      assert YdCampaignsOf(start, key) == {};
      YdCampaignsLoop(start, key, g.campaigns, 0);
    }
  }

  lemma {:induction false} GroupsLoop(db: Items, groupSetId: int, groupSetName: string, gs: seq<GroupPayload>, from: nat)
    requires from <= |gs|
    requires ValidItems(db) && groupSetId < db.nextGroupSetId
    requires ApplyGroups(db, groupSetId, groupSetName, gs, from).Ok?
    ensures var after := ApplyGroups(db, groupSetId, groupSetName, gs, from).value;
      && ValidItems(after)
      && db.nextGroupId <= after.nextGroupId
      && GroupsOf(after, groupSetId) == GroupsOf(db, groupSetId) + GroupIdsFrom(gs, from) + NewIds(db.nextGroupId, after.nextGroupId)
    decreases |gs| - from
  {
    if from == |gs| {
      assert NewIds(db.nextGroupId, db.nextGroupId) == {};
    } else {
      var mid := ApplyGroup(db, groupSetId, groupSetName, gs[from]).value;
      GroupSaved(db, groupSetId, groupSetName, gs[from]);
      assert GroupsOf(mid, groupSetId) == GroupsOf(db, groupSetId) + {GroupKey(db, gs[from])};
      GroupsLoop(mid, groupSetId, groupSetName, gs, from + 1);
      var after := ApplyGroups(db, groupSetId, groupSetName, gs, from).value;
      assert after == ApplyGroups(mid, groupSetId, groupSetName, gs, from + 1).value;
      NewIdsSplit(db.nextGroupId, mid.nextGroupId, after.nextGroupId);
      if !TruthyId(gs[from].groupId) {
        NewIdsOne(db.nextGroupId);
      }
    }
  }

  /**
   * Saving a group set leaves it in the campaign, and its groups are then
   * exactly the ids sent for it plus the groups created for it.
   */
  lemma GroupSetSaved(db: Items, campaignId: int, s: GroupSetPayload)
    requires ValidItems(db)
    requires ApplyGroupSet(db, campaignId, s).Ok?
    ensures var after := ApplyGroupSet(db, campaignId, s).value;
      var key := GroupSetKey(db, s);
      && ValidItems(after)
      && db.nextGroupId <= after.nextGroupId
      && GroupsOf(after, key) == GroupIdsFrom(s.groups, 0) + NewIds(db.nextGroupId, after.nextGroupId)
      && after.groupSets == db.groupSets[key := GroupSetRow(campaignId, s.serialNumber, s.name)]
      && after.nextGroupSetId == db.nextGroupSetId + (if TruthyId(s.groupSetId) then 0 else 1)
  {
    var row := GroupSetRow(campaignId, s.serialNumber, s.name);
    var key := GroupSetKey(db, s);
    if TruthyId(s.groupSetId) {
      var pruned := WithoutGroups(db, key, GroupIdsFrom(s.groups, 0));
      var start := pruned.(groupSets := pruned.groupSets[key := row]);
      assert GroupsOf(start, key) == GroupsOf(pruned, key);
      GroupsLoop(start, key, s.name, s.groups, 0);
    } else {
      var start := db.(groupSets := db.groupSets[key := row], nextGroupSetId := key + 1);
      assert forall k :: k in start.groups && k != key ==> start.groups[k].groupSetId != key;
      assert GroupsOf(start, key) == {};
      GroupsLoop(start, key, s.name, s.groups, 0);
    }
  }

  lemma {:induction false} GroupSetsLoop(db: Items, campaignId: int, sets: seq<GroupSetPayload>, from: nat)
    requires from <= |sets|
    requires ValidItems(db)
    requires ApplyGroupSets(db, campaignId, sets, from).Ok?
    ensures var after := ApplyGroupSets(db, campaignId, sets, from).value;
      && ValidItems(after)
      && db.nextGroupSetId <= after.nextGroupSetId
      && GroupSetsOf(after, campaignId) ==
         GroupSetsOf(db, campaignId) + GroupSetIdsFrom(sets, from) + NewIds(db.nextGroupSetId, after.nextGroupSetId)
    decreases |sets| - from
  {
    if from == |sets| {
      assert NewIds(db.nextGroupSetId, db.nextGroupSetId) == {};
    } else {
      var mid := ApplyGroupSet(db, campaignId, sets[from]).value;
      GroupSetSaved(db, campaignId, sets[from]);
      assert GroupSetsOf(mid, campaignId) == GroupSetsOf(db, campaignId) + {GroupSetKey(db, sets[from])};
      GroupSetsLoop(mid, campaignId, sets, from + 1);
      var after := ApplyGroupSets(db, campaignId, sets, from).value;
      assert after == ApplyGroupSets(mid, campaignId, sets, from + 1).value;
      NewIdsSplit(db.nextGroupSetId, mid.nextGroupSetId, after.nextGroupSetId);
      if !TruthyId(sets[from].groupSetId) {
        NewIdsOne(db.nextGroupSetId);
      }
    }
  }

  /**
   * After a successful save the campaign's group sets are exactly the ids the
   * payload sent plus the group sets it created: every stored group set that
   * was not sent back is deleted, and no sent one is.
   */
  lemma ReconcileGroupSets(db: Items, campaignId: int, sets: seq<GroupSetPayload>)
    requires ValidItems(db)
    requires Reconcile(db, campaignId, sets).Ok?
    ensures var after := Reconcile(db, campaignId, sets).value;
      && ValidItems(after)
      && GroupSetsOf(after, campaignId) == GroupSetIdsFrom(sets, 0) + NewIds(db.nextGroupSetId, after.nextGroupSetId)
  {
    var pruned := WithoutGroupSets(db, StaleGroupSets(db, campaignId, sets));
    assert GroupSetsOf(pruned, campaignId) <= GroupSetIdsFrom(sets, 0);
    GroupSetsLoop(pruned, campaignId, sets, 0);
  }

  /** The rows in `touched` have names that no other group set of the campaign shares. */
  ghost predicate GroupSetNamesApart(db: Items, campaignId: int, touched: set<int>)
  {
    forall a, b :: a in touched && a in GroupSetsOf(db, campaignId) && b in GroupSetsOf(db, campaignId) && a != b ==>
      db.groupSets[a].name != db.groupSets[b].name
  }

  ghost predicate UniqueGroupSetNames(db: Items, campaignId: int)
  {
    GroupSetNamesApart(db, campaignId, GroupSetsOf(db, campaignId))
  }

  lemma GroupSetNamesApartSubset(db: Items, campaignId: int, more: set<int>, fewer: set<int>)
    requires fewer <= more && GroupSetNamesApart(db, campaignId, more)
    ensures GroupSetNamesApart(db, campaignId, fewer)
  {
  }

  /** The group set just saved passed the name check, so its new name is its own in the campaign. */
  lemma GroupSetStepNames(db: Items, campaignId: int, s: GroupSetPayload, touched: set<int>)
    requires ValidItems(db) && ApplyGroupSet(db, campaignId, s).Ok?
    requires GroupSetNamesApart(db, campaignId, touched)
    ensures GroupSetNamesApart(ApplyGroupSet(db, campaignId, s).value, campaignId, touched + {GroupSetKey(db, s)})
  {
    GroupSetSaved(db, campaignId, s);
    assert !GroupSetNameTakenIn(db, campaignId, s.name, s.groupSetId);
  }

  lemma {:induction false} GroupSetsLoopNames(db: Items, campaignId: int, sets: seq<GroupSetPayload>, from: nat, touched: set<int>)
    requires from <= |sets|
    requires ValidItems(db) && ApplyGroupSets(db, campaignId, sets, from).Ok?
    requires GroupSetNamesApart(db, campaignId, touched)
    ensures var after := ApplyGroupSets(db, campaignId, sets, from).value;
      GroupSetNamesApart(after, campaignId, touched + GroupSetIdsFrom(sets, from) + NewIds(db.nextGroupSetId, after.nextGroupSetId))
    decreases |sets| - from
  {
    if from < |sets| {
      var mid := ApplyGroupSet(db, campaignId, sets[from]).value;
      var key := GroupSetKey(db, sets[from]);
      GroupSetSaved(db, campaignId, sets[from]);
      GroupSetStepNames(db, campaignId, sets[from], touched);
      GroupSetsLoopNames(mid, campaignId, sets, from + 1, touched + {key});
      var after := ApplyGroupSets(db, campaignId, sets, from).value;
      assert after == ApplyGroupSets(mid, campaignId, sets, from + 1).value;
      GroupSetsLoop(mid, campaignId, sets, from + 1);
      GroupSetNamesApartSubset(after, campaignId,
        touched + {key} + GroupSetIdsFrom(sets, from + 1) + NewIds(mid.nextGroupSetId, after.nextGroupSetId),
        touched + GroupSetIdsFrom(sets, from) + NewIds(db.nextGroupSetId, after.nextGroupSetId));
    }
  }

  /**
   * After a successful save no two group sets of the campaign share a name,
   * whatever names the stored group sets had before.
   */
  lemma ReconcileGroupSetNamesUnique(db: Items, campaignId: int, sets: seq<GroupSetPayload>)
    requires ValidItems(db)
    requires Reconcile(db, campaignId, sets).Ok?
    ensures UniqueGroupSetNames(Reconcile(db, campaignId, sets).value, campaignId)
  {
    var pruned := WithoutGroupSets(db, StaleGroupSets(db, campaignId, sets));
    var after := Reconcile(db, campaignId, sets).value;
    GroupSetsLoopNames(pruned, campaignId, sets, 0, {});
    ReconcileGroupSets(db, campaignId, sets);
    GroupSetNamesApartSubset(after, campaignId,
      {} + GroupSetIdsFrom(sets, 0) + NewIds(pruned.nextGroupSetId, after.nextGroupSetId), GroupSetsOf(after, campaignId));
  }

  /** The rows in `touched` have names that no other group of the group set shares. */
  ghost predicate GroupNamesApart(db: Items, groupSetId: int, touched: set<int>)
  {
    forall a, b :: a in touched && a in GroupsOf(db, groupSetId) && b in GroupsOf(db, groupSetId) && a != b ==>
      db.groups[a].name != db.groups[b].name
  }

  lemma GroupNamesApartSubset(db: Items, groupSetId: int, more: set<int>, fewer: set<int>)
    requires fewer <= more && GroupNamesApart(db, groupSetId, more)
    ensures GroupNamesApart(db, groupSetId, fewer)
  {
  }

  lemma GroupStepNames(db: Items, groupSetId: int, groupSetName: string, g: GroupPayload, touched: set<int>)
    requires ValidItems(db) && groupSetId < db.nextGroupSetId
    requires ApplyGroup(db, groupSetId, groupSetName, g).Ok?
    requires GroupNamesApart(db, groupSetId, touched)
    ensures GroupNamesApart(ApplyGroup(db, groupSetId, groupSetName, g).value, groupSetId, touched + {GroupKey(db, g)})
  {
    GroupSaved(db, groupSetId, groupSetName, g);
    assert !GroupNameTakenIn(db, groupSetId, g.name, g.groupId);
  }

  lemma {:induction false} GroupsLoopNames(db: Items, groupSetId: int, groupSetName: string, gs: seq<GroupPayload>,
                                           from: nat, touched: set<int>)
    requires from <= |gs|
    requires ValidItems(db) && groupSetId < db.nextGroupSetId
    requires ApplyGroups(db, groupSetId, groupSetName, gs, from).Ok?
    requires GroupNamesApart(db, groupSetId, touched)
    ensures var after := ApplyGroups(db, groupSetId, groupSetName, gs, from).value;
      GroupNamesApart(after, groupSetId, touched + GroupIdsFrom(gs, from) + NewIds(db.nextGroupId, after.nextGroupId))
    decreases |gs| - from
  {
    if from < |gs| {
      var mid := ApplyGroup(db, groupSetId, groupSetName, gs[from]).value;
      var key := GroupKey(db, gs[from]);
      GroupSaved(db, groupSetId, groupSetName, gs[from]);
      GroupStepNames(db, groupSetId, groupSetName, gs[from], touched);
      GroupsLoopNames(mid, groupSetId, groupSetName, gs, from + 1, touched + {key});
      var after := ApplyGroups(db, groupSetId, groupSetName, gs, from).value;
      assert after == ApplyGroups(mid, groupSetId, groupSetName, gs, from + 1).value;
      GroupsLoop(mid, groupSetId, groupSetName, gs, from + 1);
      GroupNamesApartSubset(after, groupSetId,
        touched + {key} + GroupIdsFrom(gs, from + 1) + NewIds(mid.nextGroupId, after.nextGroupId),
        touched + GroupIdsFrom(gs, from) + NewIds(db.nextGroupId, after.nextGroupId));
    }
  }

  /** After a group set is saved no two of its groups share a name. */
  lemma GroupSetSavedGroupNamesUnique(db: Items, campaignId: int, s: GroupSetPayload)
    requires ValidItems(db)
    requires ApplyGroupSet(db, campaignId, s).Ok?
    ensures var after := ApplyGroupSet(db, campaignId, s).value;
      GroupNamesApart(after, GroupSetKey(db, s), GroupsOf(after, GroupSetKey(db, s)))
  {
    var row := GroupSetRow(campaignId, s.serialNumber, s.name);
    var key := GroupSetKey(db, s);
    var after := ApplyGroupSet(db, campaignId, s).value;
    var start: Items;
    if TruthyId(s.groupSetId) {
      var pruned := WithoutGroups(db, key, GroupIdsFrom(s.groups, 0));
      start := pruned.(groupSets := pruned.groupSets[key := row]);
    } else {
      start := db.(groupSets := db.groupSets[key := row], nextGroupSetId := key + 1);
    }
    assert after == ApplyGroups(start, key, s.name, s.groups, 0).value;
    GroupsLoopNames(start, key, s.name, s.groups, 0, {});
    GroupSetSaved(db, campaignId, s);
    GroupNamesApartSubset(after, key,
      {} + GroupIdsFrom(s.groups, 0) + NewIds(start.nextGroupId, after.nextGroupId), GroupsOf(after, key));
  }

  /** A payload that names no group set by id deletes every stored group set of the campaign. */
  lemma AllNewGroupSetsReplaceEverything(db: Items, campaignId: int, sets: seq<GroupSetPayload>)
    requires forall i :: 0 <= i < |sets| ==> !TruthyId(sets[i].groupSetId)
    ensures StaleGroupSets(db, campaignId, sets) == GroupSetsOf(db, campaignId)
  {
    forall k ensures k !in GroupSetIdsFrom(sets, 0) {
      SentGroupSetIdsExactly(sets, 0, k);
    }
  }

  /** Keeping a group set's own name is no clash: the check leaves out the row being edited. */
  lemma OwnGroupSetNameIsFree(db: Items, campaignId: int, s: GroupSetPayload)
    requires s.groupSetId.Some? && s.groupSetId.value in db.groupSets
    requires db.groupSets[s.groupSetId.value].name == s.name
    requires forall k :: k in GroupSetsOf(db, campaignId) && k != s.groupSetId.value ==> db.groupSets[k].name != s.name
    ensures !GroupSetNameTakenIn(db, campaignId, s.name, s.groupSetId)
  {
  }

  // ---------------------------------------------------------------------
  // The tables as an object, saved with loops
  // ---------------------------------------------------------------------

  /** The outcome of a method agrees with the specification's result. */
  predicate Agrees(spec: Result<Items, ItemError>, err: Option<ItemError>, now: Items)
  {
    (spec.Ok? ==> err.None? && now == spec.value) && (spec.Err? ==> err == Some(spec.error))
  }

  /** No key sequence of `now` is behind the one of `before`. */
  predicate CountersAtLeast(now: Items, before: Items)
  {
    now.nextGroupSetId >= before.nextGroupSetId && now.nextGroupId >= before.nextGroupId
    && now.nextYdCampaignId >= before.nextYdCampaignId
  }

  /**
   * The state after a rolled-back transaction: every table holds the rows it
   * held before, while the key sequences keep the values the failed inserts
   * consumed (database sequences are not transactional).
   */
  predicate RolledBack(now: Items, before: Items)
  {
    now.groupSets == before.groupSets && now.groups == before.groups && now.ydCampaigns == before.ydCampaigns
    && CountersAtLeast(now, before)
  }

  /** A rollback keeps the store's key invariant. */
  lemma RollbackKeepsValid(now: Items, before: Items)
    requires ValidItems(before) && RolledBack(now, before)
    ensures ValidItems(now)
  {
    assert forall k :: k in now.groups ==> now.groups[k].groupSetId < now.nextGroupSetId by {
      forall k | k in now.groups ensures now.groups[k].groupSetId < now.nextGroupSetId {
        assert k in before.groups;
      }
    }
  }

  class ItemStore {
    var groupSets: map<int, GroupSetRow>
    var groups: map<int, GroupRow>
    var ydCampaigns: map<int, YdCampaignRow>
    var nextGroupSetId: int
    var nextGroupId: int
    var nextYdCampaignId: int

    function State(): Items
      reads this
    {
      Items(groupSets, groups, ydCampaigns, nextGroupSetId, nextGroupId, nextYdCampaignId)
    }

    method SetState(db: Items)
      modifies this
      ensures State() == db
    {
      groupSets, groups, ydCampaigns := db.groupSets, db.groups, db.ydCampaigns;
      nextGroupSetId, nextGroupId, nextYdCampaignId := db.nextGroupSetId, db.nextGroupId, db.nextYdCampaignId;
    }

    constructor(db: Items)
      ensures State() == db
    {
      groupSets, groups, ydCampaigns := db.groupSets, db.groups, db.ydCampaigns;
      nextGroupSetId, nextGroupId, nextYdCampaignId := db.nextGroupSetId, db.nextGroupId, db.nextYdCampaignId;
    }

    /** The loop over `group['campaigns']`. */
    method SaveYdCampaigns(groupId: int, cs: seq<YdCampaignPayload>) returns (err: Option<ItemError>)
      modifies this
      ensures Agrees(ApplyYdCampaigns(old(State()), groupId, cs, 0), err, State())
      ensures CountersAtLeast(State(), old(State()))
    {
      var i := 0;
      while i < |cs|
        invariant 0 <= i <= |cs|
        invariant CountersAtLeast(State(), old(State()))
        invariant ApplyYdCampaigns(State(), groupId, cs, i) == ApplyYdCampaigns(old(State()), groupId, cs, 0)
      {
        var c := cs[i];
        var row := YdCampaignRow(c.serialNumber, c.campaignName, c.ydCampaignId, Some(groupId));
        if TruthyId(c.campaignId) {
          if c.campaignId.value !in ydCampaigns {
            return Some(NotFound("YdCampaign"));
          }
          ydCampaigns := ydCampaigns[c.campaignId.value := row];
        } else {
          ydCampaigns := ydCampaigns[nextYdCampaignId := row];
          nextYdCampaignId := nextYdCampaignId + 1;
        }
        i := i + 1;
      }
      return None;
    }

    /** One pass of the loop over `group_set['groups']`. */
    method SaveGroup(groupSetId: int, groupSetName: string, g: GroupPayload) returns (err: Option<ItemError>)
      modifies this
      ensures Agrees(ApplyGroup(old(State()), groupSetId, groupSetName, g), err, State())
      ensures CountersAtLeast(State(), old(State()))
    {
      if GroupNameTakenIn(State(), groupSetId, g.name, g.groupId) {
        return Some(GroupNameTaken(g.name, groupSetName));
      }
      var id: int;
      if TruthyId(g.groupId) {
        id := g.groupId.value;
        if id !in groups {
          return Some(NotFound("CampaignGroup"));
        }
        ydCampaigns := WithoutYdCampaigns(State(), id, YdCampaignIdsFrom(g.campaigns, 0)).ydCampaigns;
      } else {
        id := nextGroupId;
        nextGroupId := nextGroupId + 1;
      }
      groups := groups[id := GroupRow(groupSetId, g.serialNumber, g.name)];
      err := SaveYdCampaigns(id, g.campaigns);
    }

    /** One pass of the loop over `group_sets`. */
    method SaveGroupSet(campaignId: int, s: GroupSetPayload) returns (err: Option<ItemError>)
      modifies this
      ensures Agrees(ApplyGroupSet(old(State()), campaignId, s), err, State())
      ensures CountersAtLeast(State(), old(State()))
    {
      if GroupSetNameTakenIn(State(), campaignId, s.name, s.groupSetId) {
        return Some(GroupSetNameTaken(s.name));
      }
      var id: int;
      if TruthyId(s.groupSetId) {
        id := s.groupSetId.value;
        if id !in groupSets {
          return Some(NotFound("GroupSets"));
        }
        groups := WithoutGroups(State(), id, GroupIdsFrom(s.groups, 0)).groups;
      } else {
        id := nextGroupSetId;
        nextGroupSetId := nextGroupSetId + 1;
      }
      groupSets := groupSets[id := GroupSetRow(campaignId, s.serialNumber, s.name)];
      ghost var start := State();
      var i := 0;
      while i < |s.groups|
        invariant 0 <= i <= |s.groups|
        invariant ApplyGroups(State(), id, s.name, s.groups, i) == ApplyGroups(start, id, s.name, s.groups, 0)
        invariant CountersAtLeast(State(), old(State()))
      {
        err := SaveGroup(id, s.name, s.groups[i]);
        if err.Some? {
          return;
        }
        i := i + 1;
      }
      return None;
    }

    /**
     * `create_or_update_campaign_group_items`: on an error the transaction is
     * rolled back, so the tables hold the rows they held before the call; the
     * key sequences stay where the failed inserts left them.
     */
    method CreateOrUpdateCampaignGroupItems(campaignId: int, sets: seq<GroupSetPayload>, update: bool)
      returns (r: Result<string, ItemError>)
      modifies this
      ensures match Reconcile(old(State()), campaignId, sets)
              case Ok(db) => r == Ok(SuccessMessage(update)) && State() == db
              case Err(e) => r == Err(e) && RolledBack(State(), old(State()))
    {
      var saved := State();
      var stale := GroupSetsOf(saved, campaignId) - GroupSetIdsFrom(sets, 0);
      if stale != {} {
        groupSets := map k | k in groupSets && k !in stale :: groupSets[k];
      }
      assert State() == WithoutGroupSets(saved, StaleGroupSets(saved, campaignId, sets));
      var i := 0;
      while i < |sets|
        invariant 0 <= i <= |sets|
        invariant ApplyGroupSets(State(), campaignId, sets, i) == Reconcile(saved, campaignId, sets)
        invariant CountersAtLeast(State(), saved)
      {
        var err := SaveGroupSet(campaignId, sets[i]);
        if err.Some? {
          SetState(saved.(nextGroupSetId := nextGroupSetId, nextGroupId := nextGroupId,
                          nextYdCampaignId := nextYdCampaignId));
          return Err(err.value);
        }
        i := i + 1;
      }
      return Ok(SuccessMessage(update));
    }
  }
}
