/** The report handlers: filing a report (uploaded as a PDF or published by
    name or link) against a product, removing one, and listing them. */
module ReportRoutes {
  import opened Wrappers
  import opened Time
  import opened Responses
  import opened Models
  import opened Store
  import Auth

  const DoneMessage: string := "成功"
  const RemovedMessage: string := "完成"
  const PdfExtension: string := ".pdf"

  /** The update every filing applies to the barcode's products. */
  function Finish(reportId: Uuid): Product -> Product {
    (p: Product) => p.(stage := Finished, reportId := Some(reportId))
  }

  /** Marking products finished keeps their barcodes, so the barcode's
      selection is the same afterwards, and each selected row is finished with
      the report linked while every other row is untouched. */
  lemma FinishKeepsSelection(products: map<int, Product>, barcode: string, reportId: Uuid)
    ensures var after := UpdateWhere(products, HasBarcode(barcode), Finish(reportId));
      && Selected(after, HasBarcode(barcode)) == Selected(products, HasBarcode(barcode))
      && Count(after, HasBarcode(barcode)) == Count(products, HasBarcode(barcode))
      && (forall k :: k in after && after[k].barcode == barcode ==>
            after[k].stage == Finished && after[k].reportId == Some(reportId))
      && (forall k :: k in after && after[k].barcode != barcode ==> after[k] == products[k])
  {
    var after := UpdateWhere(products, HasBarcode(barcode), Finish(reportId));
    forall k | k in products
      ensures HasBarcode(barcode)(after[k]) == HasBarcode(barcode)(products[k])
    {
    }
    assert Selected(after, HasBarcode(barcode)) == Selected(products, HasBarcode(barcode));
  }

  /** The insert-then-update both filing handlers share: store the report,
      then finish every product with the barcode. Exactly one such product is
      success; none or several is a server error, with the report kept and the
      rows updated all the same. */
  method FileReport(db: Database, report: Report, barcode: string) returns (r: GenericResult<string>)
    requires db.Valid()
    requires report.id !in db.reports
    modifies db
    ensures db.Valid()
    ensures db.reports == old(db.reports)[report.id := report]
    ensures db.products == UpdateWhere(old(db.products), HasBarcode(barcode), Finish(report.id))
    ensures r.Ok? <==> Count(old(db.products), HasBarcode(barcode)) == 1
    ensures r.Ok? ==> r == Build(DoneMessage)
    ensures r.Err? ==> r.error == ServerInternalError
    ensures db.profiles == old(db.profiles) && db.users == old(db.users)
    ensures db.productSeq == old(db.productSeq) && db.profileSeq == old(db.profileSeq) && db.userSeq == old(db.userSeq)
  {
    db.reports := db.reports[report.id := report];
    var updated := Count(db.products, HasBarcode(barcode));
    db.products := UpdateWhere(db.products, HasBarcode(barcode), Finish(report.id));
    if updated == 1 {
      r := Build(DoneMessage);
    } else {
      r := Err(ServerInternalError);
    }
  }

  /** `upload_report`, from the point the PDF has been written or failed to
      be. `fileUuid` is the fresh name the file is stored under, `stored`
      whether the write succeeded, and `reportId` the id the store assigns to
      the new row. */
  method UploadReport(db: Database, staff: Auth.StaffAuth, barcode: string, fileUuid: string, stored: bool,
                      reportId: Uuid, downloadBase: string, now: Instant)
    returns (r: GenericResult<string>)
    requires db.Valid()
    requires reportId !in db.reports
    modifies db
    ensures db.Valid()
    ensures !stored ==>
      r == Err(ServerInternalError) && db.reports == old(db.reports) && db.products == old(db.products)
    ensures stored ==>
      var filename := fileUuid + PdfExtension;
      && db.reports == old(db.reports)[reportId := Report(reportId, staff.userId, Some(filename), downloadBase + filename, now)]
      && db.products == UpdateWhere(old(db.products), HasBarcode(barcode), Finish(reportId))
      && (r.Ok? <==> Count(old(db.products), HasBarcode(barcode)) == 1)
      && (r.Ok? ==> r == Build(DoneMessage))
      && (r.Err? ==> r.error == ServerInternalError)
    ensures db.profiles == old(db.profiles) && db.users == old(db.users)
    ensures db.productSeq == old(db.productSeq) && db.profileSeq == old(db.profileSeq) && db.userSeq == old(db.userSeq)
  {
    var filename := fileUuid + PdfExtension;
    var downloadUrl := downloadBase + filename;
    if !stored {
      return Err(ServerInternalError);
    }
    r := FileReport(db, Report(reportId, staff.userId, Some(filename), downloadUrl, now), barcode);
  }

  datatype PublishReportData = PublishReportData(productBarcode: string, filename: Option<string>, downloadUrl: Option<string>)

  /** The link a published report is stored with: the given one, else the
      download base followed by the filename. The fallback is built before the
      choice is made, so a missing filename is refused even when a link is
      given. */
  function PublishedUrl(data: PublishReportData, downloadBase: string): (r: Result<string, GenericError>)
    ensures r.Err? <==> data.filename.None?
    ensures r.Err? ==> r.error == InvalidInputError
    ensures r.Ok? && data.downloadUrl.Some? ==> r.value == data.downloadUrl.value
    ensures r.Ok? && data.downloadUrl.None? ==> r.value == downloadBase + data.filename.value
  {
    match data.filename
    case None => Err(InvalidInputError)
    case Some(filename) => Ok(data.downloadUrl.GetOr(downloadBase + filename))
  }

  /** `publish_report`: file a report that is already hosted somewhere. */
  method PublishReport(db: Database, staff: Auth.StaffAuth, data: PublishReportData,
                       reportId: Uuid, downloadBase: string, now: Instant)
    returns (r: GenericResult<string>)
    requires db.Valid()
    requires reportId !in db.reports
    modifies db
    ensures db.Valid()
    ensures PublishedUrl(data, downloadBase).Err? ==>
      r == Err(InvalidInputError) && db.reports == old(db.reports) && db.products == old(db.products)
    ensures PublishedUrl(data, downloadBase).Ok? ==>
      var url := PublishedUrl(data, downloadBase).value;
      && db.reports == old(db.reports)[reportId := Report(reportId, staff.userId, data.filename, url, now)]
      && db.products == UpdateWhere(old(db.products), HasBarcode(data.productBarcode), Finish(reportId))
      && (r.Ok? <==> Count(old(db.products), HasBarcode(data.productBarcode)) == 1)
      && (r.Ok? ==> r == Build(DoneMessage))
      && (r.Err? ==> r.error == ServerInternalError)
    ensures db.profiles == old(db.profiles) && db.users == old(db.users)
    ensures db.productSeq == old(db.productSeq) && db.profileSeq == old(db.profileSeq) && db.userSeq == old(db.userSeq)
  {
    var url := PublishedUrl(data, downloadBase);
    if url.Err? {
      return Err(url.error);
    }
    r := FileReport(db, Report(reportId, staff.userId, data.filename, url.value, now), data.productBarcode);
  }

  /** After a successful filing the barcode names a finished product linked
      to the report, and the report's link is served for its id. */
  lemma FiledReportIsServed(products: map<int, Product>, reports: map<Uuid, Report>, barcode: string, report: Report)
    requires Count(products, HasBarcode(barcode)) == 1
    ensures var after := UpdateWhere(products, HasBarcode(barcode), Finish(report.id));
      && GetReportUrl(reports[report.id := report], report.id) == Build(report.downloadUrl)
      && First(after, HasBarcode(barcode)).Ok?
      && First(after, HasBarcode(barcode)).value.stage == Finished
      && First(after, HasBarcode(barcode)).value.reportId == Some(report.id)
  {
    FinishKeepsSelection(products, barcode, report.id);
    var after := UpdateWhere(products, HasBarcode(barcode), Finish(report.id));
    var k := MinKey(Selected(after, HasBarcode(barcode)));
    assert after[k].barcode == barcode;
  }

  /** `remove_report`: delete the report with the id; deleting nothing is an
      input error. Products that point at it keep their link. */
  method RemoveReport(db: Database, reportId: Uuid) returns (r: GenericResult<string>)
    requires db.Valid()
    modifies db
    ensures db.Valid()
    ensures r.Ok? <==> reportId in old(db.reports)
    ensures r.Ok? ==> r == Build(RemovedMessage)
    ensures r.Err? ==> r.error == InvalidInputError
    ensures db.reports == old(db.reports) - {reportId}
    ensures db.products == old(db.products) && db.profiles == old(db.profiles) && db.users == old(db.users)
    ensures db.productSeq == old(db.productSeq) && db.profileSeq == old(db.profileSeq) && db.userSeq == old(db.userSeq)
  {
    var deleted := if reportId in db.reports then 1 else 0;
    db.reports := db.reports - {reportId};
    if deleted == 1 {
      r := Build(RemovedMessage);
    } else {
      r := Err(InvalidInputError);
    }
  }

  /** `get_reports`: a page of all reports in id order. */
  function GetReports(reports: map<Uuid, Report>, page: int): (r: GenericResult<seq<Report>>)
    ensures r.Err? <==> PageOffset(page) < 0
    ensures r.Err? ==> r.error == DieselError(DatabaseError(NegativeOffsetMessage))
    ensures r.Ok? ==> r.value.data == ListPage(reports, AnyReport(), page).value && |r.value.data| <= PageSize
  {
    match ListPage(reports, AnyReport(), page)
    case Err(e) => Err(DieselError(e))
    case Ok(rows) => Build(rows)
  }

  /** `get_filtered_reports`: a page of one uploader's reports in id order. */
  function GetFilteredReports(reports: map<Uuid, Report>, page: int, uploaderId: int)
    : (r: GenericResult<seq<Report>>)
    ensures r.Err? <==> PageOffset(page) < 0
    ensures r.Err? ==> r.error == DieselError(DatabaseError(NegativeOffsetMessage))
    ensures r.Ok? ==> r.value.data == ListPage(reports, UploadedBy(uploaderId), page).value
    ensures r.Ok? ==> |r.value.data| <= PageSize
    ensures r.Ok? ==> forall i :: 0 <= i < |r.value.data| ==> r.value.data[i].uploaderId == uploaderId
  {
    match ListPage(reports, UploadedBy(uploaderId), page)
    case Err(e) => Err(DieselError(e))
    case Ok(rows) =>
      ListPageSound(reports, UploadedBy(uploaderId), page);
      Build(rows)
  }

  /** `get_report`: the download link of the report with the id. */
  function GetReportUrl(reports: map<Uuid, Report>, id: Uuid): (r: GenericResult<string>)
    ensures r.Ok? <==> id in reports
    ensures r.Ok? ==> r.value.data == reports[id].downloadUrl
    ensures r.Err? ==> r.error == DieselError(NotFound)
  {
    match Find(reports, id)
    case Err(e) => Err(DieselError(e))
    case Ok(report) => Build(report.downloadUrl)
  }
}
