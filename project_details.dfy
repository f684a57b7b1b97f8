/**
 * The project-details screen: the fetch outcome, the render branch, the
 * 'N/A' fallbacks, the receipts-button rule and the receipt parameters.
 */
module ProjectDetails {
  import opened Wrappers
  import opened Gateway
  import opened Navigation

  const NoDetails := "No details found for this project"
  const LoadFailed := "Failed to load project details. Please try again."
  const NotAvailable := "N/A"

  /**
   * A row of the booked-history endpoint. Text fields read null as "";
   * amounts are whole numbers that read null as 0.
   */
  datatype DetailRecord = DetailRecord(
    status: string, bookedDate: string, regDate: string, customerName: string,
    mobileNo: string, address: string, totalcost: int, recAmount: int, balance: int)

  /** `record.RecAmount && record.RecAmount > 0`. */
  predicate HasPaidAmount(record: DetailRecord) {
    record.recAmount != 0 && record.recAmount > 0
  }

  /** `value || 'N/A'` for a text field. */
  function DisplayText(value: string): (shown: string)
    ensures value != "" ==> shown == value
    ensures value == "" ==> shown == NotAvailable
    ensures shown != ""
  {
    if value != "" then value else NotAvailable
  }

  /** An amount field: shown (formatted) when truthy, 'N/A' (None) otherwise. */
  function DisplayAmount(amount: int): (shown: Option<int>)
    ensures shown.Some? <==> amount != 0
    ensures shown.Some? ==> shown.value == amount
  {
    if amount != 0 then Some(amount) else None
  }

  /** The rendered details: every text is non-empty, falling back to 'N/A'. */
  datatype DetailsPage = DetailsPage(
    title: string, site: string, unitNo: string, status: string, bookedDate: string,
    regDate: string, customerName: string, mobileNo: string, address: string,
    totalCost: Option<int>, receivedAmount: Option<int>, balance: Option<int>,
    showReceiptButton: bool)

  function Page(params: ProjectDetailsParams, d: DetailRecord, hasReceipts: bool): (page: DetailsPage)
    ensures page.title == DisplayText(params.projectName) && page.site == DisplayText(params.projectSite)
    ensures page.unitNo == DisplayText(params.unitNo) && page.status == DisplayText(d.status)
    ensures page.bookedDate == DisplayText(d.bookedDate) && page.regDate == DisplayText(d.regDate)
    ensures page.customerName == DisplayText(d.customerName) && page.mobileNo == DisplayText(d.mobileNo)
    ensures page.address == DisplayText(d.address)
    ensures page.totalCost == DisplayAmount(d.totalcost)
    ensures page.receivedAmount == DisplayAmount(d.recAmount)
    ensures page.balance == DisplayAmount(d.balance)
    ensures page.showReceiptButton == hasReceipts
  {
    DetailsPage(
      DisplayText(params.projectName), DisplayText(params.projectSite), DisplayText(params.unitNo),
      DisplayText(d.status), DisplayText(d.bookedDate), DisplayText(d.regDate),
      DisplayText(d.customerName), DisplayText(d.mobileNo), DisplayText(d.address),
      DisplayAmount(d.totalcost), DisplayAmount(d.recAmount), DisplayAmount(d.balance),
      hasReceipts)
  }

  /** `handleViewReceipt`: exactly the id, the transaction id and the name go on. */
  function ViewReceipt(params: ProjectDetailsParams): (route: Route)
    ensures route == ReceiptDetailsRoute(ReceiptParams(params.projectId, params.projectTranId, params.projectName))
  {
    ReceiptDetailsRoute(ReceiptParams(params.projectId, params.projectTranId, params.projectName))
  }

  datatype DetailsView =
    | Spinner
    | ErrorView(message: string)
    | NoRecords            // 'No records found'
    | Details(page: DetailsPage)

  class ProjectDetailsScreen {
    const params: ProjectDetailsParams
    var projectDetails: Option<DetailRecord>
    var loading: bool
    var error: Option<string>
    var hasReceipts: bool

    /** Once loading ends, an error or a record is there. */
    ghost predicate Valid()
      reads this
    {
      loading || error.Some? || projectDetails.Some?
    }

    constructor (params: ProjectDetailsParams)
      ensures this.params == params
      ensures projectDetails == None && loading && error == None && !hasReceipts
      ensures Valid()
    {
      this.params := params;
      projectDetails := None;
      loading := true;
      error := None;
      hasReceipts := false;
    }

    /**
     * The fetch effect, with `response` the gateway's answer: keep the first
     * row, or record why there is none; loading ends in every case.
     */
    method Load(response: Fetch<DetailRecord>)
      requires Valid()
      modifies this
      ensures Valid() && !loading
      ensures response.Returned? && |response.rows| > 0 ==>
                && projectDetails == Some(response.rows[0])
                && hasReceipts == (old(hasReceipts) || HasPaidAmount(response.rows[0]))
                && error == old(error)
      ensures response.Returned? && |response.rows| == 0 ==>
                && error == Some(NoDetails)
                && projectDetails == old(projectDetails) && hasReceipts == old(hasReceipts)
      ensures response.Thrown? ==>
                && error == Some(LoadFailed)
                && projectDetails == old(projectDetails) && hasReceipts == old(hasReceipts)
    {
      match response {
        case Returned(rows) =>
          if |rows| > 0 {
            projectDetails := Some(rows[0]);
            if HasPaidAmount(rows[0]) {
              hasReceipts := true;
            }
          } else {
            error := Some(NoDetails);
          }
        case Thrown =>
          error := Some(LoadFailed);
      }
      loading := false;
    }

    /** The render branches, checked in order: loading, error, no record, details. */
    function Render(): (v: DetailsView)
      reads this
      ensures loading ==> v == Spinner
      ensures !loading && error.Some? ==> v == ErrorView(error.value)
      ensures !loading && error.None? && projectDetails.None? ==> v == NoRecords
      ensures !loading && error.None? && projectDetails.Some? ==>
                v == Details(Page(params, projectDetails.value, hasReceipts))
      ensures v.Details? ==>
                projectDetails.Some? && v.page == Page(params, projectDetails.value, hasReceipts)
      ensures Valid() ==> !v.NoRecords?
    {
      if loading then Spinner
      else if error.Some? then ErrorView(error.value)
      else if projectDetails.None? then NoRecords
      else Details(Page(params, projectDetails.value, hasReceipts))
    }
  }
}
