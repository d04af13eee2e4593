/**
 * The request payload rules of products_report_generator_api/serializers.py.
 *
 * A payload is modelled after type conversion: integer fields hold integers,
 * date fields hold day numbers, a nullable field is an `Option`, a dict of
 * parameters is a sequence of (key, value) pairs in insertion order. What is
 * left to check is what the serializers declare: non-blank strings, maximum
 * lengths, non-empty nested lists, and `validate_parameters`.
 *
 * For each serializer two things are given: the error tree that the
 * framework builds for `serializer.errors` (field name -> list of messages,
 * or a nested tree keyed by list index or dict key), and a plain predicate
 * stating the constraints; the error function's contract says the errors
 * are empty exactly when the predicate holds, and names the failing fields.
 */
module Serializers {
  import opened Common

  // ---------------------------------------------------------------------
  // Error trees (`serializer.errors`)
  // ---------------------------------------------------------------------

  datatype ErrorKey = Field(name: string) | Index(i: nat) | Key(k: string)

  /** A list of messages for one field, or a nested dictionary of errors. */
  datatype ErrorValue = Messages(msgs: seq<string>) | Nested(entries: seq<(ErrorKey, ErrorValue)>)

  type Entries = seq<(ErrorKey, ErrorValue)>

  /** One dictionary entry when the field failed, none otherwise. */
  function Entry(key: ErrorKey, e: Option<ErrorValue>): (r: Entries)
    ensures r == [] <==> e.None?
  {
    if e.Some? then [(key, e.value)] else []
  }

  /** A serializer's errors: None when no field failed. */
  function AsError(entries: Entries): (r: Option<ErrorValue>)
    ensures r.None? <==> entries == []
  {
    if entries == [] then None else Some(Nested(entries))
  }

  /** The keys of a dictionary of errors, in order. */
  function KeysOf(entries: Entries): (r: seq<ErrorKey>)
    ensures |r| == |entries|
    ensures forall i :: 0 <= i < |entries| ==> r[i] == entries[i].0
  {
    seq(|entries|, i requires 0 <= i < |entries| => entries[i].0)
  }

  lemma KeysOfAppend(a: Entries, b: Entries)
    ensures KeysOf(a + b) == KeysOf(a) + KeysOf(b)
  {
    assert forall i :: 0 <= i < |a + b| ==> KeysOf(a + b)[i] == (KeysOf(a) + KeysOf(b))[i];
  }

  /** The fields a serializer's errors report, in order; none when it passed. */
  function Reported(r: Option<ErrorValue>): seq<ErrorKey>
  {
    if r.Some? && r.value.Nested? then KeysOf(r.value.entries) else []
  }

  /** The field `name` when it failed. */
  function FieldIf(failed: bool, name: string): seq<ErrorKey>
  {
    if failed then [Field(name)] else []
  }

  /** The errors of a serializer with two fields report the failing ones, in order. */
  lemma TwoFields(k1: string, e1: Option<ErrorValue>, k2: string, e2: Option<ErrorValue>)
    ensures var r := AsError(Entry(Field(k1), e1) + Entry(Field(k2), e2));
            && (r.Some? ==> r.value.Nested? && r.value.entries != [])
            && Reported(r) == FieldIf(e1.Some?, k1) + FieldIf(e2.Some?, k2)
  {
    KeysOfAppend(Entry(Field(k1), e1), Entry(Field(k2), e2));
  }

  /** The errors of a serializer with three fields report the failing ones, in order. */
  lemma ThreeFields(k1: string, e1: Option<ErrorValue>, k2: string, e2: Option<ErrorValue>,
                    k3: string, e3: Option<ErrorValue>)
    ensures var r := AsError(Entry(Field(k1), e1) + Entry(Field(k2), e2) + Entry(Field(k3), e3));
            && (r.Some? ==> r.value.Nested? && r.value.entries != [])
            && Reported(r) == FieldIf(e1.Some?, k1) + FieldIf(e2.Some?, k2) + FieldIf(e3.Some?, k3)
  {
    KeysOfAppend(Entry(Field(k1), e1), Entry(Field(k2), e2));
    KeysOfAppend(Entry(Field(k1), e1) + Entry(Field(k2), e2), Entry(Field(k3), e3));
  }

  const BlankMessage: string := "This field may not be blank."

  function DigitString(n: nat): (r: string)
    ensures |r| >= 1
  {
    var d := ['0', '1', '2', '3', '4', '5', '6', '7', '8', '9'][n % 10];
    if n < 10 then [d] else DigitString(n / 10) + [d]
  }

  function MaxLengthMessage(maxLength: nat): string
  {
    "Ensure this field has no more than " + DigitString(maxLength) + " characters."
  }

  /**
   * `CharField(max_length=maxLength)`: a blank string fails with the blank
   * message (the field's own, when it declares one) before the length is
   * checked.
   */
  function CharFieldErrors(s: string, maxLength: Option<nat>, blankMessage: string): (r: Option<ErrorValue>)
    ensures r.None? <==> s != "" && (maxLength.Some? ==> |s| <= maxLength.value)
  {
    if s == "" then Some(Messages([blankMessage]))
    else if maxLength.Some? && |s| > maxLength.value then Some(Messages([MaxLengthMessage(maxLength.value)]))
    else None
  }

  function CharField(s: string, maxLength: nat): Option<ErrorValue>
  {
    CharFieldErrors(s, Some(maxLength), BlankMessage)
  }

  /** The constraint a `CharField(max_length=maxLength)` puts on its value. */
  predicate ValidChar(s: string, maxLength: nat)
  {
    s != "" && |s| <= maxLength
  }

  /** The errors of the list items from index `from` on, keyed by their index. */
  function ChildErrors<T>(items: seq<T>, child: T -> Option<ErrorValue>, from: nat): (r: Entries)
    requires from <= |items|
    decreases |items| - from
  {
    if from == |items| then []
    else Entry(Index(from), child(items[from])) + ChildErrors(items, child, from + 1)
  }

  lemma {:induction false} ChildErrorsEmpty<T>(items: seq<T>, child: T -> Option<ErrorValue>, from: nat)
    requires from <= |items|
    ensures ChildErrors(items, child, from) == [] <==> forall i :: from <= i < |items| ==> child(items[i]).None?
    decreases |items| - from
  {
    if from < |items| {
      ChildErrorsEmpty(items, child, from + 1);
    }
  }

  /**
   * `ListField(child=..., allow_empty=allowEmpty)`: an empty list fails with
   * `emptyMessage` when it is not allowed; otherwise the failing items are
   * reported by index.
   */
  function ListFieldErrors<T>(items: seq<T>, allowEmpty: bool, emptyMessage: string, child: T -> Option<ErrorValue>)
    : (r: Option<ErrorValue>)
    ensures r.None? <==> (allowEmpty || items != []) && forall i :: 0 <= i < |items| ==> child(items[i]).None?
  {
    ChildErrorsEmpty(items, child, 0);
    if !allowEmpty && items == [] then Some(Messages([emptyMessage]))
    else AsError(ChildErrors(items, child, 0))
  }

  // ---------------------------------------------------------------------
  // NewProduct
  // ---------------------------------------------------------------------

  datatype ProductPayload = ProductPayload(
    productId: Option<int>,      // null: create a new product
    productName: string,
    counterId: int,
    directLogin: string,
    productUrls: seq<string>)

  /** Each product URL is `CharField(max_length=100)`. */
  function ProductUrlErrors(url: string): Option<ErrorValue>
  {
    CharField(url, 100)
  }

  /** `NewProduct(data=...).errors`: the fields that break their constraint, in declaration order. */
  function ProductErrors(p: ProductPayload): (r: Option<ErrorValue>)
    ensures r.None? <==> ValidProduct(p)
    ensures r.Some? ==> r.value.Nested? && r.value.entries != []
    ensures Reported(r) ==
              FieldIf(!ValidChar(p.productName, 50), "product_name")
              + FieldIf(!ValidChar(p.directLogin, 50), "direct_login")
              + FieldIf(exists i :: 0 <= i < |p.productUrls| && !ValidChar(p.productUrls[i], 100), "product_urls")
  {
    var nameErrors := CharField(p.productName, 50);
    var loginErrors := CharField(p.directLogin, 50);
    var urlsErrors := ListFieldErrors(p.productUrls, true, "", ProductUrlErrors);
    ThreeFields("product_name", nameErrors, "direct_login", loginErrors, "product_urls", urlsErrors);
    AsError(Entry(Field("product_name"), nameErrors) + Entry(Field("direct_login"), loginErrors)
      + Entry(Field("product_urls"), urlsErrors))
  }

  predicate ValidProduct(p: ProductPayload)
  {
    && ValidChar(p.productName, 50)
    && ValidChar(p.directLogin, 50)
    && forall i :: 0 <= i < |p.productUrls| ==> ValidChar(p.productUrls[i], 100)
  }

  // ---------------------------------------------------------------------
  // NewCampaign and its nested group sets, groups and Direct campaigns
  // ---------------------------------------------------------------------

  datatype YdCampaignPayload = YdCampaignPayload(
    campaignId: Option<int>,     // null: create a new Direct campaign row
    serialNumber: int,
    ydCampaignId: int,
    campaignName: string)

  datatype GroupPayload = GroupPayload(
    groupId: Option<int>,        // null: create a new group
    serialNumber: int,
    name: string,
    campaigns: seq<YdCampaignPayload>)

  datatype GroupSetPayload = GroupSetPayload(
    groupSetId: Option<int>,     // null: create a new group set
    serialNumber: int,
    name: string,
    groups: seq<GroupPayload>)

  datatype CampaignPayload = CampaignPayload(
    campaignId: Option<int>,     // null: create a new global campaign
    campaignName: string,
    productId: int,
    periodStart: int,
    periodEnd: int,
    groupSets: seq<GroupSetPayload>)

  const EmptyGroupMessage: string := "В группе кампаний должна быть как минимум 1 кампания"
  const EmptyGroupSetMessage: string := "В наборе групп должна быть как минимум 1 группа."
  const BlankCampaignNameMessage: string := "Имя кампании не может быть пустым"

  /** `NewCampaignYdCampaign`: only the name can fail. */
  function YdCampaignErrors(c: YdCampaignPayload): (r: Option<ErrorValue>)
    ensures r.None? <==> ValidYdCampaign(c)
    ensures r.Some? ==> r.value.Nested? && r.value.entries != []
    ensures Reported(r) == FieldIf(!ValidYdCampaign(c), "campaign_name")
  {
    AsError(Entry(Field("campaign_name"), CharField(c.campaignName, 100)))
  }

  /** `NewCampaignGroup`: the name, then the non-empty list of Direct campaigns. */
  function GroupErrors(g: GroupPayload): (r: Option<ErrorValue>)
    ensures r.None? <==> ValidGroup(g)
    ensures r.Some? ==> r.value.Nested? && r.value.entries != []
    ensures Reported(r) ==
              FieldIf(!ValidChar(g.name, 75), "name")
              + FieldIf(g.campaigns == [] || exists i :: 0 <= i < |g.campaigns| && !ValidYdCampaign(g.campaigns[i]),
                        "campaigns")
  {
    var nameErrors := CharField(g.name, 75);
    var campaignsErrors := ListFieldErrors(g.campaigns, false, EmptyGroupMessage, YdCampaignErrors);
    TwoFields("name", nameErrors, "campaigns", campaignsErrors);
    AsError(Entry(Field("name"), nameErrors) + Entry(Field("campaigns"), campaignsErrors))
  }

  /** `NewCampaignGroupSet`: the name, then the non-empty list of groups. */
  function GroupSetErrors(s: GroupSetPayload): (r: Option<ErrorValue>)
    ensures r.None? <==> ValidGroupSet(s)
    ensures r.Some? ==> r.value.Nested? && r.value.entries != []
    ensures Reported(r) ==
              FieldIf(!ValidChar(s.name, 75), "name")
              + FieldIf(s.groups == [] || exists i :: 0 <= i < |s.groups| && !ValidGroup(s.groups[i]), "groups")
  {
    var nameErrors := CharField(s.name, 75);
    var groupsErrors := ListFieldErrors(s.groups, false, EmptyGroupSetMessage, GroupErrors);
    TwoFields("name", nameErrors, "groups", groupsErrors);
    AsError(Entry(Field("name"), nameErrors) + Entry(Field("groups"), groupsErrors))
  }

  /** `NewCampaign`: the name, then the (possibly empty) list of group sets. */
  function CampaignErrors(c: CampaignPayload): (r: Option<ErrorValue>)
    ensures r.None? <==> ValidCampaign(c)
    ensures r.Some? ==> r.value.Nested? && r.value.entries != []
    ensures Reported(r) ==
              FieldIf(!ValidChar(c.campaignName, 75), "campaign_name")
              + FieldIf(exists i :: 0 <= i < |c.groupSets| && !ValidGroupSet(c.groupSets[i]), "group_sets")
  {
    var nameErrors := CharFieldErrors(c.campaignName, Some(75), BlankCampaignNameMessage);
    var setsErrors := ListFieldErrors(c.groupSets, true, "", GroupSetErrors);
    TwoFields("campaign_name", nameErrors, "group_sets", setsErrors);
    AsError(Entry(Field("campaign_name"), nameErrors) + Entry(Field("group_sets"), setsErrors))
  }

  predicate ValidYdCampaign(c: YdCampaignPayload)
  {
    ValidChar(c.campaignName, 100)
  }

  predicate ValidGroup(g: GroupPayload)
  {
    && ValidChar(g.name, 75)
    && |g.campaigns| > 0
    && forall i :: 0 <= i < |g.campaigns| ==> ValidYdCampaign(g.campaigns[i])
  }

  predicate ValidGroupSet(s: GroupSetPayload)
  {
    && ValidChar(s.name, 75)
    && |s.groups| > 0
    && forall i :: 0 <= i < |s.groups| ==> ValidGroup(s.groups[i])
  }

  /** `group_sets` may be empty: only the nested lists below it are declared non-empty. */
  predicate ValidCampaign(c: CampaignPayload)
  {
    && ValidChar(c.campaignName, 75)
    && forall i :: 0 <= i < |c.groupSets| ==> ValidGroupSet(c.groupSets[i])
  }

  /** A group with no Direct campaigns is rejected, with its own message. */
  lemma EmptyGroupRejected(g: GroupPayload)
    requires g.campaigns == []
    ensures !ValidGroup(g)
    ensures GroupErrors(g).Some? && (Field("campaigns"), Messages([EmptyGroupMessage])) in GroupErrors(g).value.entries
  {
  }

  /** A group set with no groups is rejected, with its own message. */
  lemma EmptyGroupSetRejected(s: GroupSetPayload)
    requires s.groups == []
    ensures !ValidGroupSet(s)
    ensures GroupSetErrors(s).Some? && (Field("groups"), Messages([EmptyGroupSetMessage])) in GroupSetErrors(s).value.entries
  {
  }

  /** A campaign without group sets is accepted when its name is. */
  lemma CampaignWithoutGroupSets(c: CampaignPayload)
    requires c.groupSets == [] && ValidChar(c.campaignName, 75)
    ensures ValidCampaign(c) && CampaignErrors(c).None?
  {
  }

  // ---------------------------------------------------------------------
  // NewActionHandbook: groups of actions with parameters
  // ---------------------------------------------------------------------

  /** The `parameters` dict in insertion order; a value is a string or null. */
  type Parameters = seq<(string, Option<string>)>

  datatype ActionPayload = ActionPayload(serialNumber: int, name: string, parameters: Parameters)

  datatype ActionGroupPayload = ActionGroupPayload(serialNumber: int, name: string, actions: seq<ActionPayload>)

  datatype ActionHandbookPayload = ActionHandbookPayload(
    handbookId: Option<int>,
    name: string,
    productId: int,
    actionsCount: int,
    actionGroups: seq<ActionGroupPayload>)

  const ParametersMessage: string := "Хотя бы один параметр в parameters должен быть не равен null"
  const EmptyActionGroupMessage: string := "Группа действий должна содержать как минимум 1 действие"
  const EmptyActionHandbookMessage: string := "Справочник действий должен содержать как минимум 1 группу действий"

  /** `validate_parameters`: at least one value must be non-null; the empty dict fails too. */
  function ValidateParameters(parameters: Parameters): (r: Result<Parameters, string>)
    ensures r.Err? <==> forall i :: 0 <= i < |parameters| ==> parameters[i].1.None?
    ensures r.Err? ==> r.error == ParametersMessage
    ensures r.Ok? ==> r.value == parameters
    ensures parameters == [] ==> r.Err?
  {
    if exists i :: 0 <= i < |parameters| && parameters[i].1.Some? then Ok(parameters)
    else Err(ParametersMessage)
  }

  /** Each value of `parameters` is `CharField(max_length=50, allow_null=True)`, keyed by its dict key. */
  function ParameterValueErrors(parameters: Parameters, from: nat): (r: Entries)
    requires from <= |parameters|
    ensures r == [] <==> forall i :: from <= i < |parameters| ==>
              parameters[i].1.None? || ValidChar(parameters[i].1.value, 50)
    decreases |parameters| - from
  {
    if from == |parameters| then []
    else
      var (k, v) := parameters[from];
      Entry(Key(k), if v.None? then None else CharField(v.value, 50)) + ParameterValueErrors(parameters, from + 1)
  }

  /**
   * The `parameters` field: the per-value checks, then `validate_parameters`
   * once those pass. It fails exactly when the parameters are not valid; the
   * failing values are reported by key, and only when every value passes is
   * the validator's message given.
   */
  function ParametersErrors(parameters: Parameters): (r: Option<ErrorValue>)
    ensures r.None? <==> ValidParameters(parameters)
    ensures (r.Some? && r.value.Nested?) <==>
              exists i :: 0 <= i < |parameters| && parameters[i].1.Some? && !ValidChar(parameters[i].1.value, 50)
    ensures r.Some? && r.value.Messages? ==> r.value == Messages([ParametersMessage])
  {
    var valueErrors := ParameterValueErrors(parameters, 0);
    if valueErrors != [] then Some(Nested(valueErrors))
    else if ValidateParameters(parameters).Err? then Some(Messages([ParametersMessage]))
    else None
  }

  /** `NewActionHandbookAction`: the name, then the parameters. */
  function ActionErrors(a: ActionPayload): (r: Option<ErrorValue>)
    ensures r.None? <==> ValidAction(a)
    ensures r.Some? ==> r.value.Nested? && r.value.entries != []
    ensures Reported(r) ==
              FieldIf(!ValidChar(a.name, 75), "name") + FieldIf(!ValidParameters(a.parameters), "parameters")
  {
    var nameErrors := CharField(a.name, 75);
    var parametersErrors := ParametersErrors(a.parameters);
    TwoFields("name", nameErrors, "parameters", parametersErrors);
    AsError(Entry(Field("name"), nameErrors) + Entry(Field("parameters"), parametersErrors))
  }

  /** `NewActionHandbookActionGroup`: the name, then the non-empty list of actions. */
  function ActionGroupErrors(g: ActionGroupPayload): (r: Option<ErrorValue>)
    ensures r.None? <==> ValidActionGroup(g)
    ensures r.Some? ==> r.value.Nested? && r.value.entries != []
    ensures Reported(r) ==
              FieldIf(!ValidChar(g.name, 100), "action_group_name")
              + FieldIf(g.actions == [] || exists i :: 0 <= i < |g.actions| && !ValidAction(g.actions[i]), "actions")
  {
    var nameErrors := CharField(g.name, 100);
    var actionsErrors := ListFieldErrors(g.actions, false, EmptyActionGroupMessage, ActionErrors);
    TwoFields("action_group_name", nameErrors, "actions", actionsErrors);
    AsError(Entry(Field("action_group_name"), nameErrors) + Entry(Field("actions"), actionsErrors))
  }

  /** `NewActionHandbook`: the name, then the non-empty list of action groups. */
  function ActionHandbookErrors(h: ActionHandbookPayload): (r: Option<ErrorValue>)
    ensures r.None? <==> ValidActionHandbook(h)
    ensures r.Some? ==> r.value.Nested? && r.value.entries != []
    ensures Reported(r) ==
              FieldIf(!ValidChar(h.name, 75), "action_handbook_name")
              + FieldIf(h.actionGroups == [] ||
                        exists i :: 0 <= i < |h.actionGroups| && !ValidActionGroup(h.actionGroups[i]),
                        "action_groups")
  {
    var nameErrors := CharField(h.name, 75);
    var groupsErrors :=
      ListFieldErrors(h.actionGroups, false, EmptyActionHandbookMessage, ActionGroupErrors);
    TwoFields("action_handbook_name", nameErrors, "action_groups", groupsErrors);
    AsError(Entry(Field("action_handbook_name"), nameErrors)
      + Entry(Field("action_groups"), groupsErrors))
  }

  predicate ValidParameters(parameters: Parameters)
  {
    && (forall i :: 0 <= i < |parameters| ==> parameters[i].1.None? || ValidChar(parameters[i].1.value, 50))
    && (exists i :: 0 <= i < |parameters| && parameters[i].1.Some?)
  }

  predicate ValidAction(a: ActionPayload)
  {
    ValidChar(a.name, 75) && ValidParameters(a.parameters)
  }

  predicate ValidActionGroup(g: ActionGroupPayload)
  {
    && ValidChar(g.name, 100)
    && |g.actions| > 0
    && forall i :: 0 <= i < |g.actions| ==> ValidAction(g.actions[i])
  }

  predicate ValidActionHandbook(h: ActionHandbookPayload)
  {
    && ValidChar(h.name, 75)
    && |h.actionGroups| > 0
    && forall i :: 0 <= i < |h.actionGroups| ==> ValidActionGroup(h.actionGroups[i])
  }

  /** A handbook needs an action group, and each action group needs an action. */
  lemma ActionHandbookNeedsActions(h: ActionHandbookPayload)
    requires ValidActionHandbook(h)
    ensures |h.actionGroups| > 0
    ensures forall i :: 0 <= i < |h.actionGroups| ==> |h.actionGroups[i].actions| > 0
  {
  }

  /** An action all of whose parameters are null is rejected with the validator's message. */
  lemma AllNullParametersRejected(a: ActionPayload)
    requires forall i :: 0 <= i < |a.parameters| ==> a.parameters[i].1.None?
    ensures !ValidAction(a)
    ensures ActionErrors(a) == Some(Nested(
              Entry(Field("name"), CharField(a.name, 75))
              + [(Field("parameters"), Messages([ParametersMessage]))]))
  {
    assert ParameterValueErrors(a.parameters, 0) == [];
  }

  // ---------------------------------------------------------------------
  // NewGoalHandbook: groups of goals
  // ---------------------------------------------------------------------

  datatype GoalPayload = GoalPayload(serialNumber: int, purposeId: string, finalName: string, ymName: string)

  datatype GoalGroupPayload = GoalGroupPayload(serialNumber: int, name: string, purposes: seq<GoalPayload>)

  datatype GoalHandbookPayload = GoalHandbookPayload(
    handbookId: Option<int>,
    name: string,
    productId: int,
    purposeCount: int,
    purposeGroups: seq<GoalGroupPayload>)

  const EmptyGoalGroupMessage: string := "Группа целей должна содержать как минимум 1 цель"
  const EmptyGoalHandbookMessage: string := "Справочник целей должен содержать как минимум 1 группу целей"

  /** `NewGoalHandbookGoal`: three text fields. */
  function GoalErrors(g: GoalPayload): (r: Option<ErrorValue>)
    ensures r.None? <==> ValidGoal(g)
    ensures r.Some? ==> r.value.Nested? && r.value.entries != []
    ensures Reported(r) ==
              FieldIf(!ValidChar(g.purposeId, 50), "purpose_id")
              + FieldIf(!ValidChar(g.finalName, 75), "final_name")
              + FieldIf(!ValidChar(g.ymName, 100), "ym_name")
  {
    var idErrors := CharField(g.purposeId, 50);
    var finalNameErrors := CharField(g.finalName, 75);
    var ymNameErrors := CharField(g.ymName, 100);
    ThreeFields("purpose_id", idErrors, "final_name", finalNameErrors, "ym_name", ymNameErrors);
    AsError(Entry(Field("purpose_id"), idErrors) + Entry(Field("final_name"), finalNameErrors)
      + Entry(Field("ym_name"), ymNameErrors))
  }

  /** `NewGoalHandbookGoalGroup`: the name, then the non-empty list of goals. */
  function GoalGroupErrors(g: GoalGroupPayload): (r: Option<ErrorValue>)
    ensures r.None? <==> ValidGoalGroup(g)
    ensures r.Some? ==> r.value.Nested? && r.value.entries != []
    ensures Reported(r) ==
              FieldIf(!ValidChar(g.name, 100), "purpose_group_name")
              + FieldIf(g.purposes == [] || exists i :: 0 <= i < |g.purposes| && !ValidGoal(g.purposes[i]), "purposes")
  {
    var nameErrors := CharField(g.name, 100);
    var purposesErrors := ListFieldErrors(g.purposes, false, EmptyGoalGroupMessage, GoalErrors);
    TwoFields("purpose_group_name", nameErrors, "purposes", purposesErrors);
    AsError(Entry(Field("purpose_group_name"), nameErrors) + Entry(Field("purposes"), purposesErrors))
  }

  /** `NewGoalHandbook`: the name, then the non-empty list of goal groups. */
  function GoalHandbookErrors(h: GoalHandbookPayload): (r: Option<ErrorValue>)
    ensures r.None? <==> ValidGoalHandbook(h)
    ensures r.Some? ==> r.value.Nested? && r.value.entries != []
    ensures Reported(r) ==
              FieldIf(!ValidChar(h.name, 75), "goal_handbook_name")
              + FieldIf(h.purposeGroups == [] ||
                        exists i :: 0 <= i < |h.purposeGroups| && !ValidGoalGroup(h.purposeGroups[i]),
                        "purpose_groups")
  {
    var nameErrors := CharField(h.name, 75);
    var groupsErrors := ListFieldErrors(h.purposeGroups, false, EmptyGoalHandbookMessage, GoalGroupErrors);
    TwoFields("goal_handbook_name", nameErrors, "purpose_groups", groupsErrors);
    AsError(Entry(Field("goal_handbook_name"), nameErrors) + Entry(Field("purpose_groups"), groupsErrors))
  }

  predicate ValidGoal(g: GoalPayload)
  {
    ValidChar(g.purposeId, 50) && ValidChar(g.finalName, 75) && ValidChar(g.ymName, 100)
  }

  predicate ValidGoalGroup(g: GoalGroupPayload)
  {
    && ValidChar(g.name, 100)
    && |g.purposes| > 0
    && forall i :: 0 <= i < |g.purposes| ==> ValidGoal(g.purposes[i])
  }

  predicate ValidGoalHandbook(h: GoalHandbookPayload)
  {
    && ValidChar(h.name, 75)
    && |h.purposeGroups| > 0
    && forall i :: 0 <= i < |h.purposeGroups| ==> ValidGoalGroup(h.purposeGroups[i])
  }

  // ---------------------------------------------------------------------
  // NewReport
  // ---------------------------------------------------------------------

  datatype ReportPayload = ReportPayload(
    productId: int,
    campaignId: int,
    periodStart: int,
    periodEnd: int,
    actionHandbookId: Option<int>,
    goalHandbookId: Option<int>,
    prevCampaignSheet: Option<string>,
    sheetsForForming: Option<seq<(string, bool)>>)

  /** Only the nullable `prev_campaign_sheet` can still fail: it may be null but not blank. */
  function ReportErrors(p: ReportPayload): (r: Option<ErrorValue>)
    ensures r.None? <==> p.prevCampaignSheet != Some("")
    ensures r.Some? ==> r.value.Nested? && r.value.entries != []
    ensures Reported(r) == FieldIf(p.prevCampaignSheet == Some(""), "prev_campaign_sheet")
  {
    AsError(Entry(Field("prev_campaign_sheet"),
      if p.prevCampaignSheet.None? then None else CharFieldErrors(p.prevCampaignSheet.value, None, BlankMessage)))
  }

}
