/**
 * Screen transitions, as the value a handler returns: the target screen and
 * the parameters it carries. The navigation framework itself is not modelled.
 */
module Navigation {

  datatype OtpParams = OtpParams(generatedOtp: string, mobile: string, otpDeliveryConfirmed: bool)

  datatype ProjectDetailsParams = ProjectDetailsParams(
    projectId: int, projectTranId: int, projectName: string, projectSite: string, unitNo: string)

  datatype ReceiptParams = ReceiptParams(projectId: int, projectTranId: int, projectName: string)

  datatype Route =
    | OtpRoute(otp: OtpParams)
    | AdScreenRoute
    | DashboardRoute
    | ProjectDetailsRoute(details: ProjectDetailsParams)
    | ReceiptDetailsRoute(receipts: ReceiptParams)
}
