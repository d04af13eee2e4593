/**
 * Helpers of products_report_generator_api/views.py: the error flattener
 * used for every 400 response, the name shown for a previous report file,
 * and the two helpers the Direct campaign listing applies to data fetched
 * from outside (status relabelling, CSRF header injection).
 */
module ReportViews {
  import opened Common
  import opened Serializers

  // ---------------------------------------------------------------------
  // error_formatter
  // ---------------------------------------------------------------------

  /**
   * `order` stands for the iteration order of a Python set built from its
   * argument: it lists each distinct element once, in an order the model
   * does not fix.
   */
  ghost predicate SetIteration(order: seq<string> -> seq<string>)
  {
    forall p :: IsSetOrder(p, order(p))
  }

  /**
   * One error value as a string: a list of messages joined with ', ', a
   * nested dictionary flattened the same way as the whole errors dict: the
   * strings of its fields, each distinct one once, joined with ' --- '.
   */
  function Formatted(v: ErrorValue, order: seq<string> -> seq<string>): (r: string)
    requires SetIteration(order)
    ensures v.Messages? ==> r == Join(", ", v.msgs)
    ensures v.Nested? ==>
              exists q :: NoRepeats(q) && r == Join(" --- ", q)
                          && forall x :: x in q <==> exists i :: 0 <= i < |v.entries| && x == Formatted(v.entries[i].1, order)
    decreases v
  {
    match v
    case Messages(msgs) => Join(", ", msgs)
    case Nested(entries) =>
      var parts := seq(|entries|, i requires 0 <= i < |entries| => Formatted(entries[i].1, order));
      var q := order(parts);
      SetOrderFacts(parts, q);
      assert forall x :: x in parts <==> exists i :: 0 <= i < |entries| && x == Formatted(entries[i].1, order) by {
        forall x | x in parts ensures exists i :: 0 <= i < |entries| && x == Formatted(entries[i].1, order) {
          var i :| 0 <= i < |parts| && parts[i] == x;
          assert x == Formatted(entries[i].1, order);
        }
        forall i | 0 <= i < |entries| ensures Formatted(entries[i].1, order) in parts {
          assert parts[i] == Formatted(entries[i].1, order);
        }
      }
      Join(" --- ", q)
  }

  /** The per-field strings of an errors dict, in field order. */
  function FieldStrings(errors: Entries, order: seq<string> -> seq<string>): (r: seq<string>)
    requires SetIteration(order)
    ensures |r| == |errors|
    ensures forall i :: 0 <= i < |errors| ==> r[i] == Formatted(errors[i].1, order)
  {
    seq(|errors|, i requires 0 <= i < |errors| => Formatted(errors[i].1, order))
  }

  /**
   * `error_formatter(serializer_errors)`: the distinct per-field strings,
   * each once and in some order, joined with ' --- '.
   */
  function ErrorFormatter(errors: Entries, order: seq<string> -> seq<string>): (r: string)
    requires SetIteration(order)
    ensures exists q :: IsSetOrder(FieldStrings(errors, order), q) && r == Join(" --- ", q)
    ensures exists q :: NoRepeats(q) && r == Join(" --- ", q)
                        && forall x :: x in q <==> exists i :: 0 <= i < |errors| && x == Formatted(errors[i].1, order)
  {
    var parts := FieldStrings(errors, order);
    assert IsSetOrder(parts, order(parts));
    Formatted(Nested(errors), order)
  }

  /** A single failing field is reported as its messages joined with ', '. */
  lemma SingleFieldMessage(key: ErrorKey, msgs: seq<string>, order: seq<string> -> seq<string>)
    requires SetIteration(order)
    ensures ErrorFormatter([(key, Messages(msgs))], order) == Join(", ", msgs)
  {
    var parts := FieldStrings([(key, Messages(msgs))], order);
    SetOrderOfCopies(parts, order(parts), Join(", ", msgs));
  }

  /** Fields that fail with the same string are reported once. */
  lemma IdenticalFieldsReportedOnce(errors: Entries, order: seq<string> -> seq<string>, x: string)
    requires SetIteration(order)
    requires errors != [] && forall i :: 0 <= i < |errors| ==> Formatted(errors[i].1, order) == x
    ensures ErrorFormatter(errors, order) == x
  {
    var parts := FieldStrings(errors, order);
    SetOrderOfCopies(parts, order(parts), x);
  }

  /** A product payload whose only fault is a blank name is answered with the blank-field message. */
  lemma BlankProductNameMessage(p: ProductPayload, order: seq<string> -> seq<string>)
    requires SetIteration(order)
    requires p.productName == "" && ValidChar(p.directLogin, 50)
    requires forall i :: 0 <= i < |p.productUrls| ==> ValidChar(p.productUrls[i], 100)
    ensures ProductErrors(p) == Some(Nested([(Field("product_name"), Messages([BlankMessage]))]))
    ensures ErrorFormatter(ProductErrors(p).value.entries, order) == BlankMessage
  {
    assert CharField(p.productName, 50) == Some(Messages([BlankMessage]));
    assert CharField(p.directLogin, 50).None?;
    assert ListFieldErrors(p.productUrls, true, "", ProductUrlErrors).None?;
    var blank := [(Field("product_name"), Messages([BlankMessage]))];
    assert Entry(Field("product_name"), CharField(p.productName, 50)) == blank;
    assert Entry(Field("direct_login"), CharField(p.directLogin, 50)) == [];
    assert Entry(Field("product_urls"), ListFieldErrors(p.productUrls, true, "", ProductUrlErrors)) == [];
    assert blank + [] + [] == blank;
    SingleFieldMessage(Field("product_name"), [BlankMessage], order);
  }

  // ---------------------------------------------------------------------
  // previous_report_form
  // ---------------------------------------------------------------------

  datatype PreviousReport = PreviousReport(name: string, path: string)

  const XlsxExtension: string := ".xlsx"

  /** The last '/'-segment of the report's path with every '.xlsx' removed; the path itself is kept. */
  function PreviousReportForm(filepath: string): (r: PreviousReport)
    ensures r.path == filepath
    ensures |r.name| <= |filepath|
  {
    PreviousReport(RemoveAll(LastSegment(filepath, '/'), XlsxExtension), filepath)
  }

  /**
   * '.xlsx' cannot overlap a copy of itself, so a trailing '.xlsx' is removed
   * on its own and does not disturb the removals before it.
   */
  lemma {:induction false} RemoveTrailingXlsx(b: string)
    ensures RemoveAll(b + XlsxExtension, XlsxExtension) == RemoveAll(b, XlsxExtension)
    decreases |b|
  {
    var p := XlsxExtension;
    var s := b + p;
    if b == [] {
      assert s[..|p|] == p && s[|p|..] == [];
    } else if |b| < |p| {
      assert s[|b|] == '.' && p[|b|] != '.';
      assert s[..|p|] != p by {
        assert s[..|p|][|b|] == '.';
      }
      assert s[1..] == b[1..] + p;
      RemoveTrailingXlsx(b[1..]);
      assert [b[0]] + b[1..] == b;
    } else if b[..|p|] == p {
      assert s[..|p|] == b[..|p|];
      assert s[|p|..] == b[|p|..] + p;
      RemoveTrailingXlsx(b[|p|..]);
    } else {
      assert s[..|p|] == b[..|p|];
      assert s[1..] == b[1..] + p;
      RemoveTrailingXlsx(b[1..]);
    }
  }

  /** A report saved as `dir/base.xlsx` is offered under the name `base`. */
  lemma PreviousReportName(dir: string, base: string)
    requires '/' !in base
    requires forall i: nat :: !OccursAt(base, XlsxExtension, i)
    ensures PreviousReportForm(dir + "/" + base + XlsxExtension) == PreviousReport(base, dir + "/" + base + XlsxExtension)
  {
    assert dir + "/" + base + XlsxExtension == dir + ['/'] + (base + XlsxExtension);
    LastSegmentOfPath(dir, '/', base + XlsxExtension);
    RemoveTrailingXlsx(base);
    assert RemoveAll(base, XlsxExtension) == base;
  }

  // ---------------------------------------------------------------------
  // YDCampaigns.mappings_statuses
  // ---------------------------------------------------------------------

  /** One Direct campaign as the outside API lists it. */
  datatype YdCampaignView = YdCampaignView(id: int, name: string, status: string)

  /** `CAMPAIGN_STATUSES[status]`: None is the KeyError. */
  function StatusLabel(status: string): (r: Option<string>)
    ensures r.Some? <==> status == "ACTIVE" || status == "STOPPED" || status == "ARCHIVED"
  {
    if status == "ACTIVE" then Some("Идут показы")
    else if status == "STOPPED" then Some("Кампания остановлена")
    else if status == "ARCHIVED" then Some("Кампания перенесена в архив")
    else None
  }

  /** A label is not itself a status key: relabelling an already relabelled list fails. */
  lemma LabelsAreNotStatuses(status: string)
    requires StatusLabel(status).Some?
    ensures StatusLabel(StatusLabel(status).value).None?
  {
  }

  /** The index of the first campaign whose status has no label, or the length when all have one. */
  function FirstUnknown(s: seq<YdCampaignView>): (r: nat)
    ensures r <= |s|
    ensures forall i :: 0 <= i < r ==> StatusLabel(s[i].status).Some?
    ensures r < |s| ==> StatusLabel(s[r].status).None?
  {
    if s == [] then 0
    else if StatusLabel(s[0].status).None? then 0
    else 1 + FirstUnknown(s[1..])
  }

  /** The campaigns before index `k` relabelled, the rest as they were. */
  function RelabelledUpTo(s: seq<YdCampaignView>, k: nat): (r: seq<YdCampaignView>)
    requires k <= FirstUnknown(s)
    ensures |r| == |s|
    ensures forall i :: 0 <= i < |s| ==> r[i].id == s[i].id && r[i].name == s[i].name
    ensures forall i :: 0 <= i < k ==> r[i].status == StatusLabel(s[i].status).value
    ensures forall i :: k <= i < |s| ==> r[i] == s[i]
  {
    seq(|s|, i requires 0 <= i < |s| => if i < k then s[i].(status := StatusLabel(s[i].status).value) else s[i])
  }

  /**
   * `mappings_statuses(outer_yd_campaigns)`: relabels each campaign in place;
   * at the first unknown status the KeyError stops the loop, leaving the
   * campaigns before it relabelled. The unknown status is returned.
   */
  method MappingsStatuses(campaigns: array<YdCampaignView>) returns (keyError: Option<string>)
    modifies campaigns
    ensures var k := FirstUnknown(old(campaigns[..]));
      && campaigns[..] == RelabelledUpTo(old(campaigns[..]), k)
      && keyError == (if k < campaigns.Length then Some(old(campaigns[..])[k].status) else None)
  {
    ghost var original := campaigns[..];
    var i := 0;
    while i < campaigns.Length
      invariant 0 <= i <= campaigns.Length
      invariant i <= FirstUnknown(original)
      invariant campaigns[..] == RelabelledUpTo(original, i)
    {
      var newStatus := StatusLabel(campaigns[i].status);
      if newStatus.None? {
        return Some(campaigns[i].status);
      }
      campaigns[i] := campaigns[i].(status := newStatus.value);
      i := i + 1;
    }
    return None;
  }

  /** When every status is known, every campaign ends up with its label and nothing else about it changes. */
  lemma AllKnownStatusesRelabelled(s: seq<YdCampaignView>)
    requires forall i :: 0 <= i < |s| ==> StatusLabel(s[i].status).Some?
    ensures FirstUnknown(s) == |s|
    ensures forall i :: 0 <= i < |s| ==>
              RelabelledUpTo(s, |s|)[i] == YdCampaignView(s[i].id, s[i].name, StatusLabel(s[i].status).value)
  {
  }

  // ---------------------------------------------------------------------
  // YDCampaigns.update_headers_with_csrf
  // ---------------------------------------------------------------------

  const CsrfCookie: string := "_direct_csrf_token"
  const CsrfHeader: string := "x-csrf-token"

  /** `cookies.get("_direct_csrf_token")` */
  function CsrfToken(cookies: map<string, string>): (r: Option<string>)
    ensures r.Some? <==> CsrfCookie in cookies
    ensures r.Some? ==> r.value == cookies[CsrfCookie]
  {
    if CsrfCookie in cookies then Some(cookies[CsrfCookie]) else None
  }

  /** The headers after injection: the token is set exactly when the cookie is truthy; other headers stay. */
  function WithCsrf(headers: map<string, string>, cookies: map<string, string>): (r: map<string, string>)
    ensures TruthyText(CsrfToken(cookies)) ==> CsrfHeader in r && r[CsrfHeader] == cookies[CsrfCookie]
    ensures !TruthyText(CsrfToken(cookies)) ==> r == headers
    ensures forall h :: h != CsrfHeader ==> (h in r <==> h in headers)
    ensures forall h :: h in r && h != CsrfHeader ==> r[h] == headers[h]
  {
    var token := CsrfToken(cookies);
    if TruthyText(token) then headers[CsrfHeader := token.value] else headers
  }

  /** Injecting twice is injecting once. */
  lemma WithCsrfIdempotent(headers: map<string, string>, cookies: map<string, string>)
    ensures WithCsrf(WithCsrf(headers, cookies), cookies) == WithCsrf(headers, cookies)
  {
  }

  /** The request headers of the Direct session, updated in place. */
  class RequestHeaders {
    var headers: map<string, string>

    constructor(initial: map<string, string>)
      ensures headers == initial
    {
      headers := initial;
    }

    /** `update_headers_with_csrf(headers, cookies)`: mutates the dict and returns it. */
    method UpdateHeadersWithCsrf(cookies: map<string, string>) returns (result: map<string, string>)
      modifies this
      ensures headers == WithCsrf(old(headers), cookies)
      ensures result == headers
    {
      var token := CsrfToken(cookies);
      if TruthyText(token) {
        headers := headers[CsrfHeader := token.value];
      }
      result := headers;
    }
  }
}
