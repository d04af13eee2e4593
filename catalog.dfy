/**
 * The report generator's soft-deletable tables (reports, products, global
 * campaigns, action and goal handbooks) and the two create-or-edit views
 * whose name checks the tables' `unique=True` names rely on:
 * `Products.post` and `Campaigns.post` (products_report_generator_api/views.py).
 *
 * A row is never removed: deleting sets its `to_delete` flag, and every
 * listing and every lookup by id only sees rows whose flag is still false.
 */
module Catalog {
  import opened Common
  import opened Serializers
  import opened CampaignItems
  import opened ReportViews

  /** A stored row and its soft-delete flag. */
  datatype Stored<T> = Stored(row: T, toDelete: bool)

  /** A response: the status code and the `message` of its body (None: the framework's own 404 body). */
  datatype Response = Response(status: int, message: Option<string>)

  /** The rows a listing shows, `filter(to_delete=False)`. */
  function Listed<T>(rows: map<int, Stored<T>>): (r: set<int>)
    ensures forall k :: k in r ==> k in rows && !rows[k].toDelete
    ensures forall k :: k in rows && !rows[k].toDelete ==> k in r
  {
    set k | k in rows && !rows[k].toDelete
  }

  /** The table after one row's flag is set. */
  function MarkDeleted<T>(rows: map<int, Stored<T>>, id: int): map<int, Stored<T>>
    requires id in rows
  {
    rows[id := rows[id].(toDelete := true)]
  }

  /**
   * Soft delete is a one-way state change: the row stays stored with its
   * data, leaves every listing, and no other row's state changes.
   */
  lemma MarkDeletedLeavesListing<T>(rows: map<int, Stored<T>>, id: int)
    requires id in Listed(rows)
    ensures MarkDeleted(rows, id).Keys == rows.Keys
    ensures MarkDeleted(rows, id)[id].row == rows[id].row && MarkDeleted(rows, id)[id].toDelete
    ensures Listed(MarkDeleted(rows, id)) == Listed(rows) - {id}
    ensures forall k :: k in rows && k != id ==> MarkDeleted(rows, id)[k] == rows[k]
  {
  }

  /** The text of the Http404 that `get_object_or_404` raises. */
  function NoMatchText(model: string): string
  {
    "No " + model + " matches the given query."
  }

  /**
   * A soft-delete view as written: the `get_object_or_404` lookup sits inside
   * `try ... except Exception`, and Http404 is an Exception, so a missing or
   * already deleted id is answered with a 500 carrying the 404's text.
   */
  function SoftDeleteAsWritten<T>(rows: map<int, Stored<T>>, id: int, successMessage: string,
                                 failurePrefix: string, model: string): (r: (map<int, Stored<T>>, Response))
    ensures id in Listed(rows) ==> r == (MarkDeleted(rows, id), Response(200, Some(successMessage)))
    ensures id !in Listed(rows) ==> r == (rows, Response(500, Some(failurePrefix + NoMatchText(model))))
  {
    if id in rows && !rows[id].toDelete then (MarkDeleted(rows, id), Response(200, Some(successMessage)))
    else (rows, Response(500, Some(failurePrefix + NoMatchText(model))))
  }

  /** As written, deleting the same product twice answers the second request with a server error. */
  lemma DeletingTwiceAsWrittenIsServerError<T>(rows: map<int, Stored<T>>, id: int)
    requires id in Listed(rows)
    ensures var first := SoftDeleteAsWritten(rows, id, "Продукт успешно удалён", "Ошибка удаления продукта: ", "Product");
      && first.1.status == 200
      && SoftDeleteAsWritten(first.0, id, "Продукт успешно удалён", "Ошибка удаления продукта: ", "Product").1
         == Response(500, Some("Ошибка удаления продукта: " + NoMatchText("Product")))
  {
    MarkDeletedLeavesListing(rows, id);
  }

  /** One soft-deletable table. */
  class Table<T> {
    var rows: map<int, Stored<T>>
    var nextId: int

    constructor(initial: map<int, Stored<T>>, next: int)
      ensures rows == initial && nextId == next
    {
      rows := initial;
      nextId := next;
    }

    /**
     * `get_object_or_404(Model, pk=id, to_delete=False)`, then
     * `to_delete = True` and save; a missing or already deleted id is a 404.
     */
    method SoftDelete(id: int, successMessage: string) returns (resp: Response)
      modifies this
      ensures old(id in Listed(rows)) ==> rows == MarkDeleted(old(rows), id) && resp == Response(200, Some(successMessage))
      ensures old(id !in Listed(rows)) ==> rows == old(rows) && resp == Response(404, None)
      ensures nextId == old(nextId)
    {
      if id !in rows || rows[id].toDelete {
        return Response(404, None);
      }
      rows := rows[id := rows[id].(toDelete := true)];
      return Response(200, Some(successMessage));
    }
  }

  // ---------------------------------------------------------------------
  // Rows
  // ---------------------------------------------------------------------

  datatype ProductRow = ProductRow(name: string, ymCounter: int, ydLogin: string, links: seq<string>, userId: int)

  datatype CampaignRow = CampaignRow(productId: int, ydLogin: string, name: string, startedAt: int, endedAt: int, userId: int)

  datatype ReportRow = ReportRow(productId: int, statusId: int, filepath: Option<string>)

  datatype HandbookRow = HandbookRow(name: string, productId: int)

  /** `Product.objects.filter(name=name).exclude(pk=exclude).exists()`: soft-deleted products count too. */
  predicate ProductNameTaken(rows: map<int, Stored<ProductRow>>, name: string, exclude: Option<int>)
  {
    exists k :: k in rows && rows[k].row.name == name && exclude != Some(k)
  }

  predicate CampaignNameTaken(rows: map<int, Stored<CampaignRow>>, name: string, exclude: Option<int>)
  {
    exists k :: k in rows && rows[k].row.name == name && exclude != Some(k)
  }

  /** The `unique=True` constraint on `Product.name`. */
  ghost predicate UniqueProductNames(rows: map<int, Stored<ProductRow>>)
  {
    forall a, b :: a in rows && b in rows && a != b ==> rows[a].row.name != rows[b].row.name
  }

  ghost predicate UniqueCampaignNames(rows: map<int, Stored<CampaignRow>>)
  {
    forall a, b :: a in rows && b in rows && a != b ==> rows[a].row.name != rows[b].row.name
  }

  /** Saving a product under its own current name is no clash: the edited row is left out of the check. */
  lemma OwnProductNameIsFree(rows: map<int, Stored<ProductRow>>, id: int)
    requires id in rows && UniqueProductNames(rows)
    ensures !ProductNameTaken(rows, rows[id].row.name, Some(id))
  {
  }

  /** Taking the name of any other product, deleted or not, is a clash. */
  lemma OtherProductNameIsTaken(rows: map<int, Stored<ProductRow>>, other: int, exclude: Option<int>)
    requires other in rows && exclude != Some(other)
    ensures ProductNameTaken(rows, rows[other].row.name, exclude)
  {
  }

  /** Every key was handed out by the table's counter, which starts at 1 like the database's. */
  ghost predicate KeysBelow<T>(rows: map<int, Stored<T>>, next: int)
  {
    1 <= next && forall k :: k in rows ==> 1 <= k < next
  }

  /** Writing a row whose name no other row has keeps the names unique. */
  lemma SaveKeepsProductNamesUnique(rows: map<int, Stored<ProductRow>>, key: int, row: ProductRow)
    requires UniqueProductNames(rows)
    requires !ProductNameTaken(rows, row.name, Some(key))
    ensures UniqueProductNames(rows[key := Stored(row, false)])
  {
  }

  lemma SaveKeepsCampaignNamesUnique(rows: map<int, Stored<CampaignRow>>, key: int, row: CampaignRow)
    requires UniqueCampaignNames(rows)
    requires !CampaignNameTaken(rows, row.name, Some(key))
    ensures UniqueCampaignNames(rows[key := Stored(row, false)])
  {
  }

  /**
   * A report `previous_reports` offers for a product: a listed row of that
   * product with status 2 and a file path.
   */
  predicate Offered(reports: map<int, Stored<ReportRow>>, productId: int, k: int)
  {
    k in reports && !reports[k].toDelete && reports[k].row.productId == productId
    && reports[k].row.statusId == 2 && reports[k].row.filepath.Some?
  }

  /** `sub` is `s` with some elements left out, the rest kept in order. */
  predicate Subsequence(sub: seq<int>, s: seq<int>)
    decreases |s|
  {
    sub == [] || (s != [] && ((sub[0] == s[0] && Subsequence(sub[1..], s[1..])) || Subsequence(sub, s[1..])))
  }

  /** The rows of `ids` that are offered, in the order of `ids`. */
  function OfferedIds(reports: map<int, Stored<ReportRow>>, productId: int, ids: seq<int>): (r: seq<int>)
    ensures |r| <= |ids|
    ensures forall i :: 0 <= i < |r| ==> Offered(reports, productId, r[i])
    ensures forall k :: k in r <==> k in ids && Offered(reports, productId, k)
    ensures (forall i :: 0 <= i < |ids| ==> Offered(reports, productId, ids[i])) ==> r == ids
  {
    if ids == [] then []
    else (if Offered(reports, productId, ids[0]) then [ids[0]] else []) + OfferedIds(reports, productId, ids[1..])
  }

  /** The offered rows keep the order of the walk. */
  lemma {:induction false} OfferedIdsInOrder(reports: map<int, Stored<ReportRow>>, productId: int, ids: seq<int>)
    ensures Subsequence(OfferedIds(reports, productId, ids), ids)
  {
    if ids != [] {
      OfferedIdsInOrder(reports, productId, ids[1..]);
      var rest := OfferedIds(reports, productId, ids[1..]);
      if Offered(reports, productId, ids[0]) {
        assert OfferedIds(reports, productId, ids) == [ids[0]] + rest;
        assert ([ids[0]] + rest)[1..] == rest;
      } else {
        assert OfferedIds(reports, productId, ids) == rest;
      }
    }
  }

  /** Every offered row occurs as often as the walk visits it, and no other row occurs. */
  lemma {:induction false} OfferedIdsCount(reports: map<int, Stored<ReportRow>>, productId: int, ids: seq<int>, k: int)
    ensures multiset(OfferedIds(reports, productId, ids))[k] == if Offered(reports, productId, k) then multiset(ids)[k] else 0
  {
    if ids != [] {
      OfferedIdsCount(reports, productId, ids[1..], k);
      var rest := OfferedIds(reports, productId, ids[1..]);
      assert ids == [ids[0]] + ids[1..];
      assert multiset(ids) == multiset([ids[0]]) + multiset(ids[1..]);
      if Offered(reports, productId, ids[0]) {
        assert multiset([ids[0]] + rest) == multiset([ids[0]]) + multiset(rest);
      }
    }
  }

  /**
   * The previous reports offered for a product, a list with one entry per
   * offered row, each as `previous_report_form` shows it; `ids` is the order
   * in which the query walks the report table.
   */
  function PreviousReports(reports: map<int, Stored<ReportRow>>, productId: int, ids: seq<int>)
    : (r: seq<PreviousReport>)
    ensures |r| <= |ids|
    ensures (forall i :: 0 <= i < |ids| ==> Offered(reports, productId, ids[i])) ==> |r| == |ids|
    ensures |r| == |OfferedIds(reports, productId, ids)|
    ensures forall i :: 0 <= i < |r| ==>
              r[i] == PreviousReportForm(reports[OfferedIds(reports, productId, ids)[i]].row.filepath.value)
    ensures forall k :: k in ids && Offered(reports, productId, k) ==>
              PreviousReportForm(reports[k].row.filepath.value) in r
    ensures forall x :: x in r ==>
              exists k :: k in ids && Offered(reports, productId, k) && x == PreviousReportForm(reports[k].row.filepath.value)
  {
    var o := OfferedIds(reports, productId, ids);
    var r := ReportForms(reports, o);
    ReportFormsInclude(reports, o);
    ReportFormsFrom(reports, o);
    r
  }

  /** Two offered reports stored under the same path give two entries, not one. */
  lemma SamePathListedTwice(reports: map<int, Stored<ReportRow>>, productId: int, a: int, b: int)
    requires Offered(reports, productId, a) && Offered(reports, productId, b)
    requires reports[a].row.filepath == reports[b].row.filepath
    ensures |PreviousReports(reports, productId, [a, b])| == 2
    ensures PreviousReports(reports, productId, [a, b])[0] == PreviousReports(reports, productId, [a, b])[1]
  {
    assert OfferedIds(reports, productId, [a, b]) == [a, b];
  }

  /** Every row of `o` has its form among the forms of `o`. */
  lemma ReportFormsInclude(reports: map<int, Stored<ReportRow>>, o: seq<int>)
    requires forall i :: 0 <= i < |o| ==> o[i] in reports && reports[o[i]].row.filepath.Some?
    ensures forall k :: k in o ==> k in reports && reports[k].row.filepath.Some?
                                   && PreviousReportForm(reports[k].row.filepath.value) in ReportForms(reports, o)
  {
    var r := ReportForms(reports, o);
    forall k | k in o
      ensures k in reports && reports[k].row.filepath.Some? && PreviousReportForm(reports[k].row.filepath.value) in r
    {
      var i :| 0 <= i < |o| && o[i] == k;
      assert r[i] == PreviousReportForm(reports[k].row.filepath.value);
    }
  }

  /** Every form of `o` is the form of one of its rows. */
  lemma ReportFormsFrom(reports: map<int, Stored<ReportRow>>, o: seq<int>)
    requires forall i :: 0 <= i < |o| ==> o[i] in reports && reports[o[i]].row.filepath.Some?
    ensures forall x :: x in ReportForms(reports, o) ==>
              exists k :: k in o && k in reports && reports[k].row.filepath.Some?
                          && x == PreviousReportForm(reports[k].row.filepath.value)
  {
    var r := ReportForms(reports, o);
    forall x | x in r
      ensures exists k :: k in o && k in reports && reports[k].row.filepath.Some?
                          && x == PreviousReportForm(reports[k].row.filepath.value)
    {
      var i :| 0 <= i < |r| && r[i] == x;
      var k := o[i];
      assert k in o && k in reports && reports[k].row.filepath.Some?;
      assert x == PreviousReportForm(reports[k].row.filepath.value);
    }
  }

  /** `previous_report_form` of each row of `o`, in order. */
  function ReportForms(reports: map<int, Stored<ReportRow>>, o: seq<int>): (r: seq<PreviousReport>)
    requires forall i :: 0 <= i < |o| ==> o[i] in reports && reports[o[i]].row.filepath.Some?
    ensures |r| == |o|
    ensures forall i :: 0 <= i < |o| ==> r[i] == PreviousReportForm(reports[o[i]].row.filepath.value)
  {
    seq(|o|, i requires 0 <= i < |o| => PreviousReportForm(reports[o[i]].row.filepath.value))
  }

  // ---------------------------------------------------------------------
  // The store
  // ---------------------------------------------------------------------

  const ProductNotFoundText: string := "Product matching query does not exist."

  function ProductNameTakenMessage(name: string): string
  {
    "Имя продукта '" + name + "' уже используется."
  }

  function CampaignNameTakenMessage(name: string): string
  {
    "Имя глобальной кампании '" + name + "' уже используется."
  }

  /** The response for a failed group item save: 409 with its message, or the framework's 404. */
  function ItemErrorResponse(e: ItemError): (r: Response)
    ensures r.status == ErrorStatus(e)
    ensures r.message.Some? <==> !e.NotFound?
  {
    if e.NotFound? then Response(404, None) else Response(409, Some(ConflictMessage(e)))
  }

  class CatalogStore {
    const reports: Table<ReportRow>
    const products: Table<ProductRow>
    const campaigns: Table<CampaignRow>
    const actionHandbooks: Table<HandbookRow>
    const goalHandbooks: Table<HandbookRow>
    const items: ItemStore

    constructor(initialItems: Items)
      ensures fresh(reports) && fresh(products) && fresh(campaigns) && fresh(actionHandbooks) && fresh(goalHandbooks)
      ensures fresh(items) && items.State() == initialItems
      ensures actionHandbooks != goalHandbooks
    {
      reports := new Table(map[], 1);
      products := new Table(map[], 1);
      campaigns := new Table(map[], 1);
      actionHandbooks := new Table(map[], 1);
      goalHandbooks := new Table(map[], 1);
      items := new ItemStore(initialItems);
    }

    /** `ReportToEdit.delete` */
    method DeleteReport(id: int) returns (resp: Response)
      modifies reports
      ensures old(id in Listed(reports.rows)) ==>
                reports.rows == MarkDeleted(old(reports.rows), id) && resp == Response(200, Some("Отчёт успешно удалён"))
      ensures old(id !in Listed(reports.rows)) ==> reports.rows == old(reports.rows) && resp == Response(404, None)
      ensures reports.nextId == old(reports.nextId)
    {
      resp := reports.SoftDelete(id, "Отчёт успешно удалён");
    }

    /** `ProductToEdit.delete` */
    method DeleteProduct(id: int) returns (resp: Response)
      modifies products
      ensures old(id in Listed(products.rows)) ==>
                products.rows == MarkDeleted(old(products.rows), id) && resp == Response(200, Some("Продукт успешно удалён"))
      ensures old(id !in Listed(products.rows)) ==> products.rows == old(products.rows) && resp == Response(404, None)
      ensures products.nextId == old(products.nextId)
    {
      resp := products.SoftDelete(id, "Продукт успешно удалён");
    }

    /** `CampaignToEdit.delete` */
    method DeleteCampaign(id: int) returns (resp: Response)
      modifies campaigns
      ensures old(id in Listed(campaigns.rows)) ==>
                campaigns.rows == MarkDeleted(old(campaigns.rows), id) && resp == Response(200, Some("Глобальная кампания успешно удалена"))
      ensures old(id !in Listed(campaigns.rows)) ==> campaigns.rows == old(campaigns.rows) && resp == Response(404, None)
      ensures campaigns.nextId == old(campaigns.nextId)
    {
      resp := campaigns.SoftDelete(id, "Глобальная кампания успешно удалена");
    }

    /** `ActionHandbookToEdit.delete` */
    method DeleteActionHandbook(id: int) returns (resp: Response)
      modifies actionHandbooks
      ensures old(id in Listed(actionHandbooks.rows)) ==>
                actionHandbooks.rows == MarkDeleted(old(actionHandbooks.rows), id)
                && resp == Response(200, Some("Справочник действий успешно удалён"))
      ensures old(id !in Listed(actionHandbooks.rows)) ==>
                actionHandbooks.rows == old(actionHandbooks.rows) && resp == Response(404, None)
      ensures actionHandbooks.nextId == old(actionHandbooks.nextId)
    {
      resp := actionHandbooks.SoftDelete(id, "Справочник действий успешно удалён");
    }

    /** `GoalHandbookToEdit.delete` */
    method DeleteGoalHandbook(id: int) returns (resp: Response)
      modifies goalHandbooks
      ensures old(id in Listed(goalHandbooks.rows)) ==>
                goalHandbooks.rows == MarkDeleted(old(goalHandbooks.rows), id)
                && resp == Response(200, Some("Справочник целей успешно удалён"))
      ensures old(id !in Listed(goalHandbooks.rows)) ==>
                goalHandbooks.rows == old(goalHandbooks.rows) && resp == Response(404, None)
      ensures goalHandbooks.nextId == old(goalHandbooks.nextId)
    {
      resp := goalHandbooks.SoftDelete(id, "Справочник целей успешно удалён");
    }

    /**
     * `Products.post`: validation (400), the edited product must be listed
     * (404), the name must not belong to another product (409), then the
     * product is written; a new product takes the next key and the
     * requesting user's id.
     */
    method PostProduct(p: ProductPayload, userId: int, order: seq<string> -> seq<string>) returns (resp: Response)
      requires SetIteration(order)
      modifies products
      ensures ProductErrors(p).Some? ==>
                resp == Response(400, Some(ErrorFormatter(ProductErrors(p).value.entries, order)))
                && products.rows == old(products.rows)
      ensures ProductErrors(p).None? && TruthyId(p.productId) && p.productId.value !in old(Listed(products.rows)) ==>
                resp == Response(404, None) && products.rows == old(products.rows)
      ensures ProductErrors(p).None? && !(TruthyId(p.productId) && p.productId.value !in old(Listed(products.rows))) ==>
                if ProductNameTaken(old(products.rows), p.productName, p.productId) then
                  resp == Response(409, Some(ProductNameTakenMessage(p.productName))) && products.rows == old(products.rows)
                else
                  var key := if TruthyId(p.productId) then p.productId.value else old(products.nextId);
                  var owner := if TruthyId(p.productId) then old(products.rows)[key].row.userId else userId;
                  && products.rows == old(products.rows)[key := Stored(ProductRow(p.productName, p.counterId, p.directLogin, p.productUrls, owner), false)]
                  && resp == Response(200, Some(if TruthyId(p.productId) then "Продукт успешно обновлён." else "Продукт успешно создан."))
      ensures products.nextId == old(products.nextId) + (if resp.status == 200 && !TruthyId(p.productId) then 1 else 0)
      ensures UniqueProductNames(old(products.rows)) && KeysBelow(old(products.rows), old(products.nextId)) ==>
                UniqueProductNames(products.rows) && KeysBelow(products.rows, products.nextId)
    {
      var errors := ProductErrors(p);
      if errors.Some? {
        return Response(400, Some(ErrorFormatter(errors.value.entries, order)));
      }
      var key: int;
      var owner: int;
      if TruthyId(p.productId) {
        key := p.productId.value;
        if key !in products.rows || products.rows[key].toDelete {
          return Response(404, None);
        }
        owner := products.rows[key].row.userId;
      } else {
        key := products.nextId;
        owner := userId;
      }
      if ProductNameTaken(products.rows, p.productName, p.productId) {
        return Response(409, Some(ProductNameTakenMessage(p.productName)));
      }
      var row := ProductRow(p.productName, p.counterId, p.directLogin, p.productUrls, owner);
      ghost var before := products.rows;
      if !TruthyId(p.productId) {
        products.nextId := products.nextId + 1;
      }
      products.rows := products.rows[key := Stored(row, false)];
      if UniqueProductNames(before) && KeysBelow(before, old(products.nextId)) {
        assert !ProductNameTaken(before, row.name, Some(key)) by {
          forall k | k in before && before[k].row.name == row.name
            ensures k == key
          {
            assert p.productId == Some(k);
          }
        }
        SaveKeepsProductNamesUnique(before, key, row);
      }
      return Response(200, Some(if TruthyId(p.productId) then "Продукт успешно обновлён." else "Продукт успешно создан."));
    }

    /**
     * The saving part of `Campaigns.post`, inside its transaction: the
     * campaign row is written, then its group items are saved; when saving
     * the items fails, the rows of both are rolled back, while the key
     * sequences keep the values the failed inserts took.
     */
    method SaveCampaign(key: int, row: CampaignRow, sets: seq<GroupSetPayload>, update: bool) returns (resp: Response)
      modifies campaigns, items
      ensures match Reconcile(old(items.State()), key, sets)
              case Ok(db) =>
                && resp == Response(200, Some(SuccessMessage(update)))
                && campaigns.rows == old(campaigns.rows)[key := Stored(row, false)]
                && campaigns.nextId == old(campaigns.nextId) + (if update then 0 else 1)
                && items.State() == db
              case Err(e) =>
                && resp == ItemErrorResponse(e)
                && campaigns.rows == old(campaigns.rows)
                && campaigns.nextId == old(campaigns.nextId) + (if update then 0 else 1)
                && RolledBack(items.State(), old(items.State()))
    {
      var savedRows := campaigns.rows;
      campaigns.rows := campaigns.rows[key := Stored(row, false)];
      if !update {
        campaigns.nextId := campaigns.nextId + 1;
      }
      var saved := items.CreateOrUpdateCampaignGroupItems(key, sets, update);
      match saved {
        case Ok(message) =>
          resp := Response(200, Some(message));
        case Err(e) =>
          campaigns.rows := savedRows;
          resp := ItemErrorResponse(e);
      }
    }

    /**
     * The part of `Campaigns.post` after the name and product checks: the
     * edited campaign must be listed (404); then the row is built, with the
     * product's login and the stored owner of an edited campaign, and saved.
     */
    method WriteCampaign(c: CampaignPayload, userId: int) returns (resp: Response)
      requires !CampaignNameTaken(campaigns.rows, c.campaignName, c.campaignId)
      requires c.productId in Listed(products.rows)
      modifies campaigns, items
      ensures TruthyId(c.campaignId) && c.campaignId.value !in old(Listed(campaigns.rows)) ==>
                resp == Response(404, None)
                && campaigns.rows == old(campaigns.rows) && items.State() == old(items.State())
      ensures !(TruthyId(c.campaignId) && c.campaignId.value !in old(Listed(campaigns.rows))) ==>
                var key := if TruthyId(c.campaignId) then c.campaignId.value else old(campaigns.nextId);
                var owner := if TruthyId(c.campaignId) then old(campaigns.rows)[key].row.userId else userId;
                var row := CampaignRow(c.productId, products.rows[c.productId].row.ydLogin, c.campaignName,
                                       c.periodStart, c.periodEnd, owner);
                match Reconcile(old(items.State()), key, c.groupSets)
                case Ok(db) =>
                  && resp == Response(200, Some(SuccessMessage(TruthyId(c.campaignId))))
                  && campaigns.rows == old(campaigns.rows)[key := Stored(row, false)]
                  && items.State() == db
                case Err(e) =>
                  && resp == ItemErrorResponse(e)
                  && campaigns.rows == old(campaigns.rows) && RolledBack(items.State(), old(items.State()))
      ensures campaigns.nextId == old(campaigns.nextId) + (if TruthyId(c.campaignId) then 0 else 1)
      ensures UniqueCampaignNames(old(campaigns.rows)) && KeysBelow(old(campaigns.rows), old(campaigns.nextId)) ==>
                UniqueCampaignNames(campaigns.rows) && KeysBelow(campaigns.rows, campaigns.nextId)
    {
      var ydLogin := products.rows[c.productId].row.ydLogin;
      var key: int;
      var owner: int;
      if TruthyId(c.campaignId) {
        key := c.campaignId.value;
        if key !in campaigns.rows || campaigns.rows[key].toDelete {
          return Response(404, None);
        }
        owner := campaigns.rows[key].row.userId;
      } else {
        key := campaigns.nextId;
        owner := userId;
      }
      var row := CampaignRow(c.productId, ydLogin, c.campaignName, c.periodStart, c.periodEnd, owner);
      if UniqueCampaignNames(campaigns.rows) && KeysBelow(campaigns.rows, campaigns.nextId) {
        assert !CampaignNameTaken(campaigns.rows, row.name, Some(key)) by {
          forall k | k in campaigns.rows && campaigns.rows[k].row.name == row.name
            ensures k == key
          {
            assert c.campaignId == Some(k);
          }
        }
        SaveKeepsCampaignNamesUnique(campaigns.rows, key, row);
      }
      resp := SaveCampaign(key, row, c.groupSets, TruthyId(c.campaignId));
    }

    /**
     * `Campaigns.post`, one transaction: validation (400), the name must not
     * belong to another campaign (409), the product must be listed (404),
     * the edited campaign must be listed (404); the campaign row is written
     * and its group items saved. When saving the items fails, the whole
     * transaction is rolled back, the campaign row included; only the key
     * sequences stay advanced.
     */
    method PostCampaign(c: CampaignPayload, userId: int, order: seq<string> -> seq<string>) returns (resp: Response)
      requires SetIteration(order)
      modifies campaigns, items
      ensures CampaignErrors(c).Some? ==>
                resp == Response(400, Some(ErrorFormatter(CampaignErrors(c).value.entries, order)))
                && campaigns.rows == old(campaigns.rows) && items.State() == old(items.State())
      ensures CampaignErrors(c).None? && CampaignNameTaken(old(campaigns.rows), c.campaignName, c.campaignId) ==>
                resp == Response(409, Some(CampaignNameTakenMessage(c.campaignName)))
                && campaigns.rows == old(campaigns.rows) && items.State() == old(items.State())
      ensures CampaignErrors(c).None? && !CampaignNameTaken(old(campaigns.rows), c.campaignName, c.campaignId)
              && c.productId !in Listed(products.rows) ==>
                resp == Response(404, Some(ProductNotFoundText))
                && campaigns.rows == old(campaigns.rows) && items.State() == old(items.State())
      ensures CampaignErrors(c).None? && !CampaignNameTaken(old(campaigns.rows), c.campaignName, c.campaignId)
              && c.productId in Listed(products.rows)
              && TruthyId(c.campaignId) && c.campaignId.value !in old(Listed(campaigns.rows)) ==>
                resp == Response(404, None)
                && campaigns.rows == old(campaigns.rows) && items.State() == old(items.State())
      ensures CampaignErrors(c).None? && !CampaignNameTaken(old(campaigns.rows), c.campaignName, c.campaignId)
              && c.productId in Listed(products.rows)
              && !(TruthyId(c.campaignId) && c.campaignId.value !in old(Listed(campaigns.rows))) ==>
                var key := if TruthyId(c.campaignId) then c.campaignId.value else old(campaigns.nextId);
                var owner := if TruthyId(c.campaignId) then old(campaigns.rows)[key].row.userId else userId;
                var row := CampaignRow(c.productId, products.rows[c.productId].row.ydLogin, c.campaignName,
                                       c.periodStart, c.periodEnd, owner);
                match Reconcile(old(items.State()), key, c.groupSets)
                case Ok(db) =>
                  && resp == Response(200, Some(SuccessMessage(TruthyId(c.campaignId))))
                  && campaigns.rows == old(campaigns.rows)[key := Stored(row, false)]
                  && items.State() == db
                case Err(e) =>
                  && resp == ItemErrorResponse(e)
                  && campaigns.rows == old(campaigns.rows) && RolledBack(items.State(), old(items.State()))
      ensures campaigns.nextId == old(campaigns.nextId)
                + (if CampaignErrors(c).None? && !CampaignNameTaken(old(campaigns.rows), c.campaignName, c.campaignId)
                      && c.productId in Listed(products.rows) && !TruthyId(c.campaignId) then 1 else 0)
      ensures UniqueCampaignNames(old(campaigns.rows)) && KeysBelow(old(campaigns.rows), old(campaigns.nextId)) ==>
                UniqueCampaignNames(campaigns.rows) && KeysBelow(campaigns.rows, campaigns.nextId)
    {
      var errors := CampaignErrors(c);
      if errors.Some? {
        return Response(400, Some(ErrorFormatter(errors.value.entries, order)));
      }
      if CampaignNameTaken(campaigns.rows, c.campaignName, c.campaignId) {
        return Response(409, Some(CampaignNameTakenMessage(c.campaignName)));
      }
      if c.productId !in products.rows || products.rows[c.productId].toDelete {
        return Response(404, Some(ProductNotFoundText));
      }
      resp := WriteCampaign(c, userId);
    }
  }
}
