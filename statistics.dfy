/**
 * The statistics job rules of statistics_pp/views.py: submitting an
 * aggregation job (the 3-slot metric vector and the new Process row),
 * polling a job, walking the OKPD2 classifier tree upwards, listing the
 * children of a classifier node, and creating a named segment.
 *
 * The ORM tables become values: the classifier table is a map from node id
 * to its row, the OKPD2 leaf codes and the region codifier are sequences of
 * rows (they are only ever filtered), and the writable tables (segments,
 * processes) are map fields of `StatisticsStore`.
 */
module Statistics {
  import opened Common

  // ---------------------------------------------------------------------
  // Metric vector (ProviderStatistic.post)
  // ---------------------------------------------------------------------

  /** Reference meaning of the vector: slot i is 1 exactly when metric i + 1 was chosen. */
  ghost function MetricSlots(metrics: seq<int>): (r: seq<int>)
    ensures |r| == 3
    ensures forall i :: 0 <= i < 3 ==> (r[i] == 1 <==> i + 1 in metrics) && (r[i] == 0 || r[i] == 1)
  {
    seq(3, i => if i + 1 in metrics then 1 else 0)
  }

  /**
   * Starts from `[0, 0, 0]` and sets slot `ind - 1` to 1 for every selected
   * metric index, in place.
   */
  method BuildMetricVector(metrics: seq<int>) returns (vector: seq<int>)
    requires forall k :: 0 <= k < |metrics| ==> 1 <= metrics[k] <= 3
    ensures vector == MetricSlots(metrics)
    ensures |vector| == 3
    ensures forall i :: 0 <= i < 3 ==> (vector[i] == 1 <==> i + 1 in metrics)
    ensures forall i :: 0 <= i < 3 ==> (vector[i] == 0 <==> i + 1 !in metrics)
  {
    var slots := new int[3](_ => 0);
    for k := 0 to |metrics|
      invariant forall i :: 0 <= i < 3 ==> slots[i] == (if i + 1 in metrics[..k] then 1 else 0)
    {
      assert metrics[..k + 1] == metrics[..k] + [metrics[k]];
      slots[metrics[k] - 1] := 1;
    }
    assert metrics[..|metrics|] == metrics;
    vector := slots[..];
  }

  /** The vector depends only on which indices occur: order and repetition do not matter. */
  lemma MetricSlotsIgnoreOrderAndDuplicates(a: seq<int>, b: seq<int>)
    requires forall x :: x in a <==> x in b
    ensures MetricSlots(a) == MetricSlots(b)
  {
  }

  lemma MetricExample()
    ensures MetricSlots([1, 3]) == MetricSlots([3, 1]) == MetricSlots([3, 1, 3]) == [1, 0, 1]
  {
    assert 2 !in [1, 3] && 2 !in [3, 1] && 2 !in [3, 1, 3];
  }

  // ---------------------------------------------------------------------
  // Job status polling (GetProcess.get)
  // ---------------------------------------------------------------------

  /** One aggregation job row. */
  datatype Process = Process(
    okpd2Ids: seq<nat>,
    regionIds: seq<nat>,
    metrics: seq<int>,
    progress: int,
    errorMsg: Option<string>,
    dataFile: Option<string>)

  /** What a poll answers. */
  datatype PollResponse =
    | NotFound                       // get_object_or_404: HTTP 404
    | BadGateway(message: string)    // DefaultException with status 502
    | Status(progress: int, fileUrl: Option<string>, fileName: Option<string>)

  const PollFailureMessage: string :=
    "При формировании статистики произошла ошибка. Попробуйте повторить запрос."

  /**
   * `share` stands for the object storage's `share_file_from_bucket`, which
   * turns a stored path into a shareable URL.
   */
  function Poll(processes: map<nat, Process>, requestId: nat, share: string -> string): (r: PollResponse)
    ensures r == NotFound <==> requestId !in processes
    ensures r.BadGateway? <==> requestId in processes && TruthyText(processes[requestId].errorMsg)
    ensures r.BadGateway? ==> r.message == PollFailureMessage
    ensures r.Status? && processes[requestId].progress != 100 ==>
              r == Status(processes[requestId].progress, None, None)
    ensures r.Status? && processes[requestId].progress == 100 && TruthyText(processes[requestId].dataFile) ==>
              var path := processes[requestId].dataFile.value;
              r == Status(100, Some(share(path)), Some(LastSegment(path, '/')))
    ensures r.Status? && processes[requestId].progress == 100 && !TruthyText(processes[requestId].dataFile) ==>
              r == Status(99, None, None)
    ensures r.Status? && r.fileUrl.Some? ==> r.progress == 100 && r.fileName.Some? && '/' !in r.fileName.value
  {
    if requestId !in processes then NotFound
    else
      var p := processes[requestId];
      if TruthyText(p.errorMsg) then BadGateway(PollFailureMessage)
      else if p.progress == 100 then
        if TruthyText(p.dataFile) then
          Status(p.progress, Some(share(p.dataFile.value)), Some(LastSegment(p.dataFile.value, '/')))
        else
          Status(99, None, None)
      else
        Status(p.progress, None, None)
  }

  /** A finished job whose file is stored as `dir/name` is reported under the display name `name`. */
  lemma PollNamesStoredFile(processes: map<nat, Process>, requestId: nat, share: string -> string, dir: string, name: string)
    requires requestId in processes
    requires !TruthyText(processes[requestId].errorMsg) && processes[requestId].progress == 100
    requires processes[requestId].dataFile == Some(dir + "/" + name) && '/' !in name
    ensures Poll(processes, requestId, share) == Status(100, Some(share(dir + "/" + name)), Some(name))
  {
    LastSegmentOfPath(dir, '/', name);
  }

  // ---------------------------------------------------------------------
  // Classifier tree walk (GetSegmentData.parent_placeholder / get_path)
  // ---------------------------------------------------------------------

  /** One OKPD2Codifier row; `parentId == 0` marks a root. */
  datatype CodifierNode = CodifierNode(code: string, description: string, parentId: nat)

  type Codifier = map<nat, CodifierNode>

  /** How the upward walk from a node ends. */
  datatype Walk =
    | Reached(up: seq<nat>)                  // the ids from the start node up to a root
    | Broken(visited: seq<nat>, missing: nat) // a lookup of `missing` failed after `visited` were appended
    | Exhausted                              // more than `fuel` parent links

  /**
   * The walk that parent_placeholder performs, followed for at most `fuel`
   * parent links. A node whose parent is missing raises before its own id is
   * appended, so `visited` holds only the nodes below it.
   */
  function Chain(c: Codifier, id: nat, fuel: nat): Walk
    decreases fuel
  {
    if id !in c then Broken([], id)
    else if c[id].parentId == 0 then Reached([id])
    else if c[id].parentId !in c then Broken([], c[id].parentId)
    else if fuel == 0 then Exhausted
    else match Chain(c, c[id].parentId, fuel - 1)
      case Reached(up) => Reached([id] + up)
      case Broken(v, m) => Broken([id] + v, m)
      case Exhausted => Exhausted
  }

  /**
   * The classifier table has no cycles: from every node the walk ends (at a
   * root or at a missing parent) within as many links as there are nodes.
   */
  ghost predicate WalksTerminate(c: Codifier)
  {
    forall id :: id in c ==> !Chain(c, id, |c|).Exhausted?
  }

  /** `path` runs from a root down to its last element along parent links. */
  ghost predicate IsRootPath(c: Codifier, path: seq<nat>)
  {
    && |path| >= 1
    && (forall i :: 0 <= i < |path| ==> path[i] in c)
    && c[path[0]].parentId == 0
    && (forall i :: 0 <= i < |path| - 1 ==> c[path[i + 1]].parentId == path[i])
  }

  /** `up` runs from its first element to a root along parent links. */
  ghost predicate IsUpChain(c: Codifier, up: seq<nat>)
  {
    && |up| >= 1
    && (forall i :: 0 <= i < |up| ==> up[i] in c)
    && c[up[|up| - 1]].parentId == 0
    && (forall i :: 0 <= i < |up| - 1 ==> c[up[i]].parentId == up[i + 1])
  }

  /** A completed upward walk starts at the node, follows parent links and stops at a root. */
  lemma {:induction false} ReachedChainShape(c: Codifier, id: nat, fuel: nat)
    requires Chain(c, id, fuel).Reached?
    ensures IsUpChain(c, Chain(c, id, fuel).up) && Chain(c, id, fuel).up[0] == id
    decreases fuel
  {
    if c[id].parentId != 0 {
      var p := c[id].parentId;
      ReachedChainShape(c, p, fuel - 1);
      var up' := Chain(c, p, fuel - 1).up;
      assert Chain(c, id, fuel).up == [id] + up';
    }
  }

  /** Read root first, an upward chain is a root path ending at its first element. */
  lemma ReversedUpChainIsRootPath(c: Codifier, up: seq<nat>)
    requires IsUpChain(c, up)
    ensures IsRootPath(c, Reverse(up)) && Reverse(up)[|up| - 1] == up[0]
  {
    var path := Reverse(up);
    forall i | 0 <= i < |path| - 1 ensures c[path[i + 1]].parentId == path[i] {
      assert path[i + 1] == up[|up| - 2 - i] && path[i] == up[|up| - 1 - i];
    }
  }

  /** Read root first, a completed walk is a root path ending at the start node. */
  lemma ReversedChainIsRootPath(c: Codifier, id: nat, fuel: nat)
    requires Chain(c, id, fuel).Reached?
    ensures IsRootPath(c, Reverse(Chain(c, id, fuel).up))
    ensures Reverse(Chain(c, id, fuel).up)[|Chain(c, id, fuel).up| - 1] == id
  {
    ReachedChainShape(c, id, fuel);
    ReversedUpChainIsRootPath(c, Chain(c, id, fuel).up);
  }

  /** The Python list the walk appends to; it is shared by reference between calls. */
  class PathBuffer {
    var items: seq<nat>

    constructor ()
      ensures items == []
    {
      items := [];
    }

    /** `list.append(x)` */
    method Append(x: nat)
      modifies this
      ensures items == old(items) + [x]
    {
      items := items + [x];
    }

    /** `list.reverse()` */
    method ReverseInPlace()
      modifies this
      ensures items == Reverse(old(items))
    {
      items := Reverse(items);
    }
  }

  /**
   * parent_placeholder: appends each id on the way up to `acc`, reverses
   * `acc` in place at the root and returns it. A failed lookup is the
   * DoesNotExist that the ORM raises. `fuel` is only the termination
   * argument.
   */
  method ParentPlaceholder(c: Codifier, id: nat, acc: PathBuffer, ghost fuel: nat)
    returns (r: Result<PathBuffer, nat>)
    requires !Chain(c, id, fuel).Exhausted?
    modifies acc
    decreases fuel
    ensures Chain(c, id, fuel).Reached? ==>
              r == Ok(acc) && acc.items == Reverse(old(acc.items) + Chain(c, id, fuel).up)
    ensures Chain(c, id, fuel).Broken? ==>
              r == Err(Chain(c, id, fuel).missing) && acc.items == old(acc.items) + Chain(c, id, fuel).visited
  {
    if id !in c {
      return Err(id);
    }
    var node := c[id];
    if node.parentId != 0 {
      if node.parentId !in c {
        return Err(node.parentId);
      }
      acc.Append(id);
      r := ParentPlaceholder(c, node.parentId, acc, fuel - 1);
      if Chain(c, node.parentId, fuel - 1).Reached? {
        assert old(acc.items) + [id] + Chain(c, node.parentId, fuel - 1).up
            == old(acc.items) + ([id] + Chain(c, node.parentId, fuel - 1).up);
      }
    } else {
      acc.Append(id);
      acc.ReverseInPlace();
      r := Ok(acc);
    }
  }

  /**
   * The corrected walk: a fresh accumulator per top-level call. The result
   * runs from a root (parentId 0) to the start node, each id the parent of
   * the next.
   */
  method AncestorPath(c: Codifier, id: nat) returns (r: Result<seq<nat>, nat>)
    requires WalksTerminate(c)
    ensures r.Ok? <==> Chain(c, id, |c|).Reached?
    ensures r.Ok? ==> r.value == Reverse(Chain(c, id, |c|).up)
    ensures r.Ok? ==> IsRootPath(c, r.value) && r.value[|r.value| - 1] == id
    ensures r.Err? ==> r.error !in c && r.error == Chain(c, id, |c|).missing
  {
    var acc := new PathBuffer();
    var out := ParentPlaceholder(c, id, acc, |c|);
    if out.Ok? {
      ReversedChainIsRootPath(c, id, |c|);
      r := Ok(acc.items);
    } else {
      BrokenChainMissing(c, id, |c|);
      r := Err(out.error);
    }
  }

  lemma {:induction false} BrokenChainMissing(c: Codifier, id: nat, fuel: nat)
    requires Chain(c, id, fuel).Broken?
    ensures Chain(c, id, fuel).missing !in c
    decreases fuel
  {
    if id in c && c[id].parentId != 0 && c[id].parentId in c {
      BrokenChainMissing(c, c[id].parentId, fuel - 1);
    }
  }

  lemma {:induction false} ReverseReverse<T>(s: seq<T>)
    ensures Reverse(Reverse(s)) == s
  {
    var r := Reverse(Reverse(s));
    assert |r| == |s|;
    forall i | 0 <= i < |s| ensures r[i] == s[i] {
      assert r[i] == Reverse(s)[|s| - 1 - i] == s[i];
    }
  }

  /**
   * As written: two top-level calls that both use the default `array=[]`
   * share one list. Both returned references are that list, and the second
   * path is followed by the first walk's ids, so it is not the second node's
   * path.
   */
  method TwoCallsSharingDefault(c: Codifier, a: nat, b: nat) returns (firstPath: seq<nat>, secondPath: seq<nat>)
    requires WalksTerminate(c)
    requires Chain(c, a, |c|).Reached? && Chain(c, b, |c|).Reached?
    ensures secondPath == Reverse(Chain(c, b, |c|).up) + Chain(c, a, |c|).up
    ensures firstPath == secondPath
    ensures secondPath != Reverse(Chain(c, b, |c|).up)
  {
    ghost var upA, upB := Chain(c, a, |c|).up, Chain(c, b, |c|).up;
    var shared := new PathBuffer();
    var r1 := ParentPlaceholder(c, a, shared, |c|);
    assert [] + upA == upA;
    ghost var afterFirst := shared.items;
    assert afterFirst == Reverse(upA);
    var r2 := ParentPlaceholder(c, b, shared, |c|);
    firstPath, secondPath := r1.value.items, r2.value.items;
    assert secondPath == Reverse(afterFirst + upB);
    SharedListOrder(upA, upB);
  }

  /** What the shared list holds after a walk producing `upA` and then one producing `upB`. */
  lemma SharedListOrder(upA: seq<nat>, upB: seq<nat>)
    requires |upA| >= 1
    ensures Reverse(Reverse(upA) + upB) == Reverse(upB) + upA
    ensures Reverse(Reverse(upA) + upB) != Reverse(upB)
  {
    ReverseAppend(Reverse(upA), upB);
    ReverseReverse(upA);
  }

  /**
   * get_path with the corrected walk: one root-to-node path per selected
   * classifier node, in order; the first failed lookup aborts.
   */
  method GetPaths(c: Codifier, nodeIds: seq<nat>) returns (r: Result<seq<seq<nat>>, nat>)
    requires WalksTerminate(c)
    ensures r.Ok? <==> forall i :: 0 <= i < |nodeIds| ==> Chain(c, nodeIds[i], |c|).Reached?
    ensures r.Ok? ==> |r.value| == |nodeIds|
    ensures r.Ok? ==> forall i :: 0 <= i < |nodeIds| ==> r.value[i] == Reverse(Chain(c, nodeIds[i], |c|).up)
    ensures r.Err? ==> exists i :: 0 <= i < |nodeIds| && (forall j :: 0 <= j < i ==> Chain(c, nodeIds[j], |c|).Reached?)
                                   && !Chain(c, nodeIds[i], |c|).Reached? && r.error == Chain(c, nodeIds[i], |c|).missing
  {
    var paths: seq<seq<nat>> := [];
    var i := 0;
    while i < |nodeIds|
      invariant 0 <= i <= |nodeIds| && |paths| == i
      invariant forall j :: 0 <= j < i ==> Chain(c, nodeIds[j], |c|).Reached?
      invariant forall j :: 0 <= j < i ==> paths[j] == Reverse(Chain(c, nodeIds[j], |c|).up)
    {
      var p := AncestorPath(c, nodeIds[i]);
      if p.Err? {
        ghost var failed := Chain(c, nodeIds[i], |c|);
        assert !failed.Reached? && p.error == failed.missing;
        return Err(p.error);
      }
      paths := paths + [p.value];
      i := i + 1;
    }
    r := Ok(paths);
  }

  // ---------------------------------------------------------------------
  // Children of a classifier node (GetChieldForOkpd2.get)
  // ---------------------------------------------------------------------

  const UnknownNodeMessage: string := "Объекта с данным ID не найдено"

  /** The rows whose parent is `parentId`; an id absent from the table is a 400 error. */
  function Children(c: Codifier, parentId: nat): (r: Result<map<nat, CodifierNode>, string>)
    ensures r.Err? <==> parentId !in c
    ensures r.Err? ==> r.error == UnknownNodeMessage
    ensures r.Ok? ==> forall k :: k in r.value <==> k in c && c[k].parentId == parentId
    ensures r.Ok? ==> forall k :: k in r.value ==> r.value[k] == c[k]
  {
    if parentId !in c then Err(UnknownNodeMessage)
    else Ok(map k | k in c && c[k].parentId == parentId :: c[k])
  }

  /** A listed child walks up through its parent: its walk is the parent's walk with the child in front. */
  lemma ChildWalksThroughParent(c: Codifier, parentId: nat, child: nat, fuel: nat)
    requires parentId != 0
    requires Children(c, parentId).Ok? && child in Children(c, parentId).value
    requires Chain(c, parentId, fuel).Reached?
    ensures Chain(c, child, fuel + 1) == Reached([child] + Chain(c, parentId, fuel).up)
  {
  }

  // ---------------------------------------------------------------------
  // Job submission and segments (ProviderStatistic.post, CreateSegment.post)
  // ---------------------------------------------------------------------

  /** One OKPD2 leaf code row. */
  datatype Okpd2 = Okpd2(id: nat, code: string, description: string)

  /** One RegionCodifier row: its own id and the user-facing region id. */
  datatype RegionCodifierRow = RegionCodifierRow(id: nat, regionId: nat)

  /** The exceptions `Model.objects.get(...)` raises. */
  datatype LookupError = DoesNotExist | MultipleObjectsReturned

  /** The rows `filter(code=code)` selects, one per matching row. */
  function RowsWithCode(rows: seq<Okpd2>, code: string): (r: seq<Okpd2>)
    ensures forall x :: x in r <==> x in rows && x.code == code
    ensures |r| <= |rows|
  {
    if rows == [] then []
    else (if rows[0].code == code then [rows[0]] else []) + RowsWithCode(rows[1..], code)
  }

  /**
   * `OKPD2.objects.get(code=code)`: the one row with the code, DoesNotExist
   * when there is none, MultipleObjectsReturned when there are several.
   */
  function GetByCode(rows: seq<Okpd2>, code: string): (r: Result<Okpd2, LookupError>)
    ensures r.Ok? ==> r.value in rows && r.value.code == code
    ensures r == Err(DoesNotExist) <==> forall x :: x in rows ==> x.code != code
    ensures r.Ok? <==> |RowsWithCode(rows, code)| == 1
    ensures r == Err(MultipleObjectsReturned) <==> |RowsWithCode(rows, code)| > 1
  {
    var m := RowsWithCode(rows, code);
    if |m| == 0 then Err(DoesNotExist)
    else if |m| > 1 then assert m[0] in m; Err(MultipleObjectsReturned)
    else Ok(m[0])
  }

  /** Two rows with the code make the lookup raise MultipleObjectsReturned. */
  lemma {:induction false} TwoMatchesRaise(rows: seq<Okpd2>, code: string, i: int, j: int)
    requires 0 <= i < j < |rows| && rows[i].code == code && rows[j].code == code
    ensures GetByCode(rows, code) == Err(MultipleObjectsReturned)
  {
    TwoMatchesCounted(rows, code, i, j);
  }

  lemma {:induction false} TwoMatchesCounted(rows: seq<Okpd2>, code: string, i: int, j: int)
    requires 0 <= i < j < |rows| && rows[i].code == code && rows[j].code == code
    ensures |RowsWithCode(rows, code)| >= 2
  {
    if i == 0 {
      assert rows[j] == rows[1..][j - 1];
      assert rows[j] in RowsWithCode(rows[1..], code);
    } else {
      TwoMatchesCounted(rows[1..], code, i - 1, j - 1);
    }
  }

  /** The only row with the code is the one the lookup returns. */
  lemma {:induction false} UniqueMatchFound(rows: seq<Okpd2>, code: string, i: int)
    requires 0 <= i < |rows| && rows[i].code == code
    requires forall j :: 0 <= j < |rows| && j != i ==> rows[j].code != code
    ensures GetByCode(rows, code) == Ok(rows[i])
  {
    UniqueMatchSelected(rows, code, i);
  }

  lemma {:induction false} NoMatchSelectsNothing(rows: seq<Okpd2>, code: string)
    requires forall x :: x in rows ==> x.code != code
    ensures RowsWithCode(rows, code) == []
  {
    if rows != [] {
      NoMatchSelectsNothing(rows[1..], code);
    }
  }

  lemma {:induction false} UniqueMatchSelected(rows: seq<Okpd2>, code: string, i: int)
    requires 0 <= i < |rows| && rows[i].code == code
    requires forall j :: 0 <= j < |rows| && j != i ==> rows[j].code != code
    ensures RowsWithCode(rows, code) == [rows[i]]
  {
    if i == 0 {
      NoMatchSelectsNothing(rows[1..], code);
    } else {
      UniqueMatchSelected(rows[1..], code, i - 1);
    }
  }

  /** `[OKPD2.objects.get(code=c).id for c in codes]`: the first failing lookup raises. */
  function ResolveCodes(rows: seq<Okpd2>, codes: seq<string>): (r: Result<seq<nat>, LookupError>)
    ensures r.Ok? <==> forall i :: 0 <= i < |codes| ==> GetByCode(rows, codes[i]).Ok?
    ensures r.Ok? ==> |r.value| == |codes|
    ensures r.Ok? ==> forall i :: 0 <= i < |codes| ==> r.value[i] == GetByCode(rows, codes[i]).value.id
    ensures r.Err? ==> exists i :: 0 <= i < |codes| && GetByCode(rows, codes[i]) == Err(r.error)
  {
    if codes == [] then Ok([])
    else match GetByCode(rows, codes[0])
      case Err(e) => Err(e)
      case Ok(row) =>
        match ResolveCodes(rows, codes[1..])
        case Err(e) => Err(e)
        case Ok(ids) => Ok([row.id] + ids)
  }

  /** A failed resolution carries the error of the first code whose lookup fails. */
  lemma {:induction false} ResolveCodesFirstFailure(rows: seq<Okpd2>, codes: seq<string>, i: int)
    requires 0 <= i < |codes| && GetByCode(rows, codes[i]).Err?
    requires forall j :: 0 <= j < i ==> GetByCode(rows, codes[j]).Ok?
    ensures ResolveCodes(rows, codes) == Err(GetByCode(rows, codes[i]).error)
  {
    if i > 0 {
      forall j | 0 <= j < i - 1 ensures GetByCode(rows, codes[1..][j]).Ok? {
        assert codes[1..][j] == codes[j + 1];
      }
      assert codes[1..][i - 1] == codes[i];
      ResolveCodesFirstFailure(rows, codes[1..], i - 1);
    }
  }

  /** `[r.id for r in RegionCodifier.objects.filter(region_id__in=regionIds)]` */
  function RegionCodifierIds(rows: seq<RegionCodifierRow>, regionIds: seq<nat>): (r: seq<nat>)
    ensures forall x :: x in r <==> exists row :: row in rows && row.regionId in regionIds && row.id == x
  {
    if rows == [] then []
    else
      var rest := RegionCodifierIds(rows[1..], regionIds);
      assert forall row :: row in rows[1..] ==> row in rows;
      if rows[0].regionId in regionIds then [rows[0].id] + rest else rest
  }

  /** A user-named group of OKPD2 leaf codes. */
  datatype Segment = Segment(name: string, okpd2Ids: set<nat>)

  datatype SegmentError = NameExists | CodeLookup(error: LookupError)

  const SegmentExistsMessage: string := "Имя сегмента уже существует"

  predicate NameTaken(segments: map<nat, Segment>, name: string)
  {
    exists k :: k in segments && segments[k].name == name
  }

  ghost function IdsNamed(segments: map<nat, Segment>, name: string): set<nat>
  {
    set k | k in segments && segments[k].name == name
  }

  ghost predicate UniqueNames(segments: map<nat, Segment>)
  {
    forall k1, k2 :: k1 in segments && k2 in segments && segments[k1].name == segments[k2].name ==> k1 == k2
  }

  /** Adding a segment under an unused name keeps names unique; that name then belongs to it alone. */
  lemma AddUnusedName(segments: map<nat, Segment>, id: nat, seg: Segment)
    requires UniqueNames(segments) && !NameTaken(segments, seg.name) && id !in segments
    ensures UniqueNames(segments[id := seg])
    ensures IdsNamed(segments[id := seg], seg.name) == {id}
  {
  }

  /** The OKPD2 rows `segment.okpd2_set.add(...)` links: all resolved ids, or none when a lookup raised. */
  function LinkedCodes(rows: seq<Okpd2>, codes: seq<string>): (r: set<nat>)
    ensures ResolveCodes(rows, codes).Ok? ==> forall x :: x in r <==> x in ResolveCodes(rows, codes).value
    ensures ResolveCodes(rows, codes).Err? ==> r == {}
  {
    var ids := ResolveCodes(rows, codes);
    if ids.Ok? then set x | x in ids.value else {}
  }

  /** The writable part of the statistics schema. */
  class StatisticsStore {
    var okpd2: seq<Okpd2>
    var regionCodifiers: seq<RegionCodifierRow>
    var segments: map<nat, Segment>
    var processes: map<nat, Process>
    var nextSegmentId: nat
    var nextProcessId: nat

    ghost predicate Valid()
      reads this
    {
      && (forall k :: k in segments ==> k < nextSegmentId)
      && (forall k :: k in processes ==> k < nextProcessId)
      && UniqueNames(segments)
    }

    constructor (okpd2: seq<Okpd2>, regionCodifiers: seq<RegionCodifierRow>)
      ensures Valid()
      ensures this.okpd2 == okpd2 && this.regionCodifiers == regionCodifiers
      ensures segments == map[] && processes == map[]
    {
      this.okpd2, this.regionCodifiers := okpd2, regionCodifiers;
      segments, processes := map[], map[];
      nextSegmentId, nextProcessId := 1, 1;
    }

    /**
     * ProviderStatistic.post on validated parameters: resolves the region
     * codifier ids and the OKPD2 row ids, builds the metric vector and saves
     * a new Process with progress 0. An unknown OKPD2 code raises and saves
     * nothing.
     */
    method SubmitJob(codes: seq<string>, metrics: seq<int>, regionIds: seq<nat>) returns (r: Result<nat, LookupError>)
      requires Valid()
      requires forall k :: 0 <= k < |metrics| ==> 1 <= metrics[k] <= 3
      modifies this`processes, this`nextProcessId
      ensures Valid()
      ensures ResolveCodes(okpd2, codes).Err? ==>
                r == Err(ResolveCodes(okpd2, codes).error) && processes == old(processes)
      ensures ResolveCodes(okpd2, codes).Ok? ==>
                && r == Ok(old(nextProcessId))
                && old(nextProcessId) !in old(processes)
                && processes == old(processes)[old(nextProcessId) := Process(
                     ResolveCodes(okpd2, codes).value, RegionCodifierIds(regionCodifiers, regionIds),
                     MetricSlots(metrics), 0, None, None)]
    {
      var regionCodifierIds := RegionCodifierIds(regionCodifiers, regionIds);
      var ids := ResolveCodes(okpd2, codes);
      if ids.Err? {
        return Err(ids.error);
      }
      var vector := BuildMetricVector(metrics);
      var id := nextProcessId;
      processes := processes[id := Process(ids.value, regionCodifierIds, vector, 0, None, None)];
      nextProcessId := nextProcessId + 1;
      r := Ok(id);
    }

    /**
     * CreateSegment.post on validated parameters. A taken name fails and
     * changes nothing. Otherwise the segment row is created first and the
     * codes are looked up afterwards: an unknown code raises, leaving the
     * new segment without codes.
     */
    method CreateSegment(name: string, codes: seq<string>) returns (r: Result<nat, SegmentError>)
      requires Valid()
      modifies this`segments, this`nextSegmentId
      ensures Valid()
      ensures NameTaken(old(segments), name) ==> r == Err(NameExists) && segments == old(segments)
      ensures !NameTaken(old(segments), name) ==>
                && old(nextSegmentId) !in old(segments)
                && IdsNamed(segments, name) == {old(nextSegmentId)}
                && segments == old(segments)[old(nextSegmentId) := Segment(name, LinkedCodes(okpd2, codes))]
                && r == (if ResolveCodes(okpd2, codes).Ok? then Ok(old(nextSegmentId))
                         else Err(CodeLookup(ResolveCodes(okpd2, codes).error)))
    {
      if NameTaken(segments, name) {
        return Err(NameExists);
      }
      var id := nextSegmentId;
      AddUnusedName(segments, id, Segment(name, LinkedCodes(okpd2, codes)));
      segments := segments[id := Segment(name, {})];
      nextSegmentId := nextSegmentId + 1;
      var ids := ResolveCodes(okpd2, codes);
      if ids.Err? {
        r := Err(CodeLookup(ids.error));
      } else {
        segments := segments[id := Segment(name, LinkedCodes(okpd2, codes))];
        r := Ok(id);
      }
    }
  }

  /** A job just submitted polls as 0% with no file (the newly created row has progress 0). */
  lemma SubmittedJobPollsZero(processes: map<nat, Process>, id: nat, job: Process, share: string -> string)
    requires job.progress == 0 && job.errorMsg == None && job.dataFile == None
    ensures Poll(processes[id := job], id, share) == Status(0, None, None)
  {
  }
}
