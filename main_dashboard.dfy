/**
 * The newer dashboard (src/components/main/Dashboard.tsx): the 국 and
 * group lists built from the accessible-organisation response, the query
 * parameters of the weekly statistics request, the group choices and the
 * selected group's name, the parsing of the trend response and the chart
 * kind the filters select. The requests themselves are not modelled.
 */
module MainDashboard {
  import opened Common
  import AttendanceChart

  const All := "전체"

  /** A filter value: 전체 or an organisation id. */
  datatype Selection = AllSelected | Id(id: int)

  datatype GookItem = GookItem(id: int, name: string)

  datatype GroupItem = GroupItem(id: int, name: string)

  /** One entry of the accessible-organisation response; `gooks`, `groups` and `id` may be absent. */
  datatype AccessibleOrganization = AccessibleOrganization(depth: int, id: Option<int>, name: string,
                                                           gooks: Option<seq<GookItem>>, groups: Option<seq<GroupItem>>)

  /** A group as the page keeps it, tagged with its 국. */
  datatype Group = Group(id: int, name: string, gookId: int, gookName: string, organizationName: string)

  function IsDepth(d: int): AccessibleOrganization -> bool
  {
    (item: AccessibleOrganization) => item.depth == d
  }

  /** The 국 list: the `gooks` of the first depth-1 entry, if it has any. */
  function GooksOf(data: seq<AccessibleOrganization>): seq<GookItem>
  {
    match Find(data, IsDepth(1))
    case Some(item) => if item.gooks.Some? then item.gooks.value else []
    case None => []
  }

  function Tag(g: GroupItem, item: AccessibleOrganization): Group
    requires item.id.Some?
  {
    Group(g.id, g.name, item.id.value, item.name, g.name)
  }

  function Tagged(gs: seq<GroupItem>, item: AccessibleOrganization): (r: seq<Group>)
    requires item.id.Some?
    ensures |r| == |gs|
  {
    seq(|gs|, i requires 0 <= i < |gs| => Tag(gs[i], item))
  }

  /** The groups of one entry: its own groups, tagged, when it is a depth-2 entry with groups and an id. */
  function GroupsOfEntry(item: AccessibleOrganization): seq<Group>
  {
    if item.depth == 2 && item.groups.Some? && item.id.Some? then Tagged(item.groups.value, item) else []
  }

  /** The group list: every depth-2 entry's groups, in order. */
  function GroupsOf(data: seq<AccessibleOrganization>): seq<Group>
  {
    if data == [] then [] else GroupsOf(data[..|data| - 1]) + GroupsOfEntry(data[|data| - 1])
  }

  /** `transformAccessibleDataToGooksAndGroups` */
  method TransformAccessibleData(data: seq<AccessibleOrganization>) returns (gooks: seq<GookItem>, groups: seq<Group>)
    ensures gooks == GooksOf(data) && groups == GroupsOf(data)
  {
    gooks := [];
    var first := Find(data, IsDepth(1));
    if first.Some? && first.value.gooks.Some? {
      var gs := first.value.gooks.value;
      var j := 0;
      while j < |gs|
        invariant 0 <= j <= |gs| && gooks == gs[..j]
      {
        gooks := gooks + [GookItem(gs[j].id, gs[j].name)];
        j := j + 1;
      }
      assert gs[..|gs|] == gs;
    }
    groups := [];
    var i := 0;
    while i < |data|
      invariant 0 <= i <= |data| && groups == GroupsOf(data[..i])
    {
      assert data[..i + 1][..i] == data[..i];
      var item := data[i];
      if item.depth == 2 && item.groups.Some? && item.id.Some? {
        var tagged := TagGroups(item.groups.value, item);
        groups := groups + tagged;
      }
      i := i + 1;
    }
    assert data[..|data|] == data;
  }

  /** The inner loop: each group of a depth-2 entry pushed with the entry's id and name as its 국. */
  method TagGroups(gs: seq<GroupItem>, item: AccessibleOrganization) returns (groups: seq<Group>)
    requires item.id.Some?
    ensures groups == Tagged(gs, item)
  {
    groups := [];
    var j := 0;
    while j < |gs|
      invariant 0 <= j <= |gs| && groups == Tagged(gs[..j], item)
    {
      groups := groups + [Group(gs[j].id, gs[j].name, item.id.value, item.name, gs[j].name)];
      assert Tagged(gs[..j + 1], item) == Tagged(gs[..j], item) + [Tag(gs[j], item)];
      j := j + 1;
    }
    assert gs[..|gs|] == gs;
  }

  /** Entry `item`, a depth-2 entry with groups and an id, lists group item `j` as `g`. */
  predicate ListsGroup(item: AccessibleOrganization, j: int, g: Group)
  {
    item.depth == 2 && item.groups.Some? && item.id.Some?
    && 0 <= j < |item.groups.value| && g == Tag(item.groups.value[j], item)
  }

  /**
   * A group is listed exactly when some depth-2 entry with an id lists it,
   * and it then carries that entry's id and name as its 국.
   */
  lemma {:induction false} GroupsOfSpec(data: seq<AccessibleOrganization>, g: Group)
    ensures g in GroupsOf(data) <==> exists i, j :: 0 <= i < |data| && ListsGroup(data[i], j, g)
  {
    if data != [] {
      var init := data[..|data| - 1];
      var item := data[|data| - 1];
      GroupsOfSpec(init, g);
      GroupsOfEntrySpec(item, g);
      ListedSnoc(data, init, item, g);
      assert GroupsOf(data) == GroupsOf(init) + GroupsOfEntry(item);
    }
  }

  /** Some entry lists `g` exactly when an earlier entry or the last one does. */
  lemma {:induction false} ListedSnoc(data: seq<AccessibleOrganization>, init: seq<AccessibleOrganization>,
                                      item: AccessibleOrganization, g: Group)
    requires data == init + [item]
    ensures (exists i, j :: 0 <= i < |data| && ListsGroup(data[i], j, g))
        <==> (exists i, j :: 0 <= i < |init| && ListsGroup(init[i], j, g)) || exists j :: ListsGroup(item, j, g)
  {
    if exists i, j :: 0 <= i < |data| && ListsGroup(data[i], j, g) {
      var i, j :| 0 <= i < |data| && ListsGroup(data[i], j, g);
      if i < |init| {
        assert ListsGroup(init[i], j, g);
      } else {
        assert ListsGroup(item, j, g);
      }
    }
    if exists i, j :: 0 <= i < |init| && ListsGroup(init[i], j, g) {
      var i, j :| 0 <= i < |init| && ListsGroup(init[i], j, g);
      assert ListsGroup(data[i], j, g);
    }
    if exists j :: ListsGroup(item, j, g) {
      var j :| ListsGroup(item, j, g);
      assert ListsGroup(data[|init|], j, g);
    }
  }

  lemma {:induction false} GroupsOfEntrySpec(item: AccessibleOrganization, g: Group)
    ensures g in GroupsOfEntry(item) <==> exists j :: ListsGroup(item, j, g)
  {
    if g in GroupsOfEntry(item) {
      var j :| 0 <= j < |GroupsOfEntry(item)| && GroupsOfEntry(item)[j] == g;
      assert ListsGroup(item, j, g);
    }
    if exists j :: ListsGroup(item, j, g) {
      var j :| ListsGroup(item, j, g);
      assert GroupsOfEntry(item)[j] == g;
    }
  }

  /** The 국 list comes from the first depth-1 entry only. */
  lemma {:induction false} GooksOfSpec(data: seq<AccessibleOrganization>, i: nat)
    requires i < |data| && data[i].depth == 1 && data[i].gooks.Some?
    requires forall k :: 0 <= k < i ==> data[k].depth != 1
    ensures GooksOf(data) == data[i].gooks.value
  {
    assert IsDepth(1)(data[i]);
  }

  // ---------------------------------------------------------------------
  // Query parameters of the weekly statistics request
  // ---------------------------------------------------------------------

  /** `if (id && id !== '전체')`: a selected, non-zero id is sent. */
  function Param(key: string, sel: Option<Selection>): seq<(string, int)>
  {
    if sel.Some? && sel.value.Id? && sel.value.id != 0 then [(key, sel.value.id)] else []
  }

  function QueryParams(gookId: Option<Selection>, groupId: Option<Selection>): seq<(string, int)>
  {
    Param("gook", gookId) + Param("group", groupId)
  }

  /** `gook` is sent exactly for a non-zero 국 id and `group` exactly for a non-zero group id, each with its id. */
  lemma {:induction false} QueryParamsSpec(gookId: Option<Selection>, groupId: Option<Selection>, v: int)
    ensures ("gook", v) in QueryParams(gookId, groupId) <==> gookId == Some(Id(v)) && v != 0
    ensures ("group", v) in QueryParams(gookId, groupId) <==> groupId == Some(Id(v)) && v != 0
    ensures |QueryParams(gookId, groupId)| <= 2
  {
  }

  // ---------------------------------------------------------------------
  // Group choices and the selected group's name
  // ---------------------------------------------------------------------

  datatype Choice = Choice(value: Selection, text: string)

  /** `organization_name || name || 그룹 ${id}` */
  function Label(g: Group): string
  {
    if g.organizationName != "" then g.organizationName
    else if g.name != "" then g.name
    else "그룹 " + IntToString(g.id)
  }

  function BelongsTo(gookId: int): Group -> bool
  {
    (g: Group) => g.gookId == gookId
  }

  function ChoiceOf(g: Group): Choice { Choice(Id(g.id), Label(g)) }

  function Choices(gs: seq<Group>): (r: seq<Choice>)
    ensures |r| == |gs|
  {
    seq(|gs|, i requires 0 <= i < |gs| => ChoiceOf(gs[i]))
  }

  function AvailableGroups(selectedGuk: Selection, groups: seq<Group>): seq<Choice>
  {
    if selectedGuk.AllSelected? then [Choice(AllSelected, All)]
    else [Choice(AllSelected, All)] + Choices(Filter(groups, BelongsTo(selectedGuk.id)))
  }

  /** After 전체 come exactly the groups of the selected 국, in order, each labelled. */
  lemma {:induction false} AvailableGroupsSpec(selectedGuk: Selection, groups: seq<Group>, g: Group)
    ensures AvailableGroups(selectedGuk, groups)[0] == Choice(AllSelected, All)
    ensures selectedGuk.AllSelected? ==> |AvailableGroups(selectedGuk, groups)| == 1
    ensures selectedGuk.Id? && g in groups && g.gookId == selectedGuk.id ==> ChoiceOf(g) in AvailableGroups(selectedGuk, groups)
    ensures selectedGuk.Id? ==> |AvailableGroups(selectedGuk, groups)| == 1 + Count(groups, BelongsTo(selectedGuk.id))
    ensures Label(g) != ""
  {
    if selectedGuk.Id? && g in groups && g.gookId == selectedGuk.id {
      var f := Filter(groups, BelongsTo(selectedGuk.id));
      assert g in f;
      var k :| 0 <= k < |f| && f[k] == g;
      assert AvailableGroups(selectedGuk, groups)[k + 1] == ChoiceOf(g);
    }
  }

  function HasId(id: int): Group -> bool
  {
    (g: Group) => g.id == id
  }

  function SelectedGroupName(selectedGroup: Selection, groups: seq<Group>): string
  {
    if selectedGroup.AllSelected? then All
    else
      match Find(groups, HasId(selectedGroup.id))
      case Some(g) => Label(g)
      case None => All
  }

  /** 전체 for 전체 or an unknown id; otherwise the label of the first group with that id. */
  lemma {:induction false} SelectedGroupNameSpec(selectedGroup: Selection, groups: seq<Group>, i: nat)
    ensures selectedGroup.AllSelected? ==> SelectedGroupName(selectedGroup, groups) == All
    ensures selectedGroup.Id? && (forall k :: 0 <= k < |groups| ==> groups[k].id != selectedGroup.id) ==>
              SelectedGroupName(selectedGroup, groups) == All
    ensures selectedGroup.Id? && i < |groups| && groups[i].id == selectedGroup.id
            && (forall k :: 0 <= k < i ==> groups[k].id != selectedGroup.id) ==>
              SelectedGroupName(selectedGroup, groups) == Label(groups[i])
  {
    if selectedGroup.Id? && i < |groups| && groups[i].id == selectedGroup.id {
      assert HasId(selectedGroup.id)(groups[i]);
    }
  }

  // ---------------------------------------------------------------------
  // The trend response
  // ---------------------------------------------------------------------

  datatype Trend = Trend(weekLabel: string, attendance: int)

  datatype AxisItem = AxisItem(xAxisName: string, count: int)

  /**
   * The shapes the response may take: the nested `xAxis` array, the body
   * itself an array, or an array under `data` or `trend`.
   */
  datatype TrendResponse = TrendResponse(xAxis: Option<seq<AxisItem>>, asArray: Option<seq<Trend>>,
                                         dataArray: Option<seq<Trend>>, trendArray: Option<seq<Trend>>)

  function FromAxis(items: seq<AxisItem>): (r: seq<Trend>)
    ensures |r| == |items|
  {
    seq(|items|, i requires 0 <= i < |items| => Trend(items[i].xAxisName, items[i].count))
  }

  function ParseTrend(r: TrendResponse): seq<Trend>
  {
    if r.xAxis.Some? then FromAxis(r.xAxis.value)
    else if r.asArray.Some? then r.asArray.value
    else if r.dataArray.Some? then r.dataArray.value
    else if r.trendArray.Some? then r.trendArray.value
    else []
  }

  /** The nested axis wins, each item becoming one point; then the other shapes in order; else nothing. */
  lemma {:induction false} ParseTrendSpec(r: TrendResponse, i: nat)
    ensures r.xAxis.Some? && i < |r.xAxis.value| ==>
              ParseTrend(r)[i] == Trend(r.xAxis.value[i].xAxisName, r.xAxis.value[i].count)
    ensures r.xAxis.Some? ==> |ParseTrend(r)| == |r.xAxis.value|
    ensures r.xAxis.None? && r.asArray.Some? ==> ParseTrend(r) == r.asArray.value
    ensures r.xAxis.None? && r.asArray.None? && r.dataArray.Some? ==> ParseTrend(r) == r.dataArray.value
    ensures r.xAxis.None? && r.asArray.None? && r.dataArray.None? && r.trendArray.Some? ==> ParseTrend(r) == r.trendArray.value
    ensures r.xAxis.None? && r.asArray.None? && r.dataArray.None? && r.trendArray.None? ==> ParseTrend(r) == []
  {
  }

  // ---------------------------------------------------------------------
  // The chart kind
  // ---------------------------------------------------------------------

  function ChartTypeFor(selectedGuk: Selection, selectedGroup: Selection): AttendanceChart.ChartType
  {
    if selectedGuk.AllSelected? then AttendanceChart.Gook
    else if selectedGroup.AllSelected? then AttendanceChart.Group
    else AttendanceChart.Sun
  }

  /**
   * The chart goes one level below the narrowest filter: 국 when no 국 is
   * chosen, groups within a 국, 순 within a group. With non-zero ids this
   * matches the parameters sent: 국 exactly when no `gook` is sent, 순
   * exactly when both are sent.
   */
  lemma {:induction false} ChartTypeMatchesParams(gook: Selection, group: Selection)
    requires gook.Id? ==> gook.id != 0
    requires group.Id? ==> group.id != 0
    ensures ChartTypeFor(gook, group) == AttendanceChart.Gook <==> |Param("gook", Some(gook))| == 0
    ensures ChartTypeFor(gook, group) == AttendanceChart.Sun <==> |QueryParams(Some(gook), Some(group))| == 2
    ensures !ChartTypeFor(gook, group).Other?
  {
  }
}
