/** The document record shared by the list and detail pages. */
module Documents {
  import opened Wrappers

  /** `"pending" | "signed" | "expired"`. */
  datatype Status = Pending | Signed | Expired

  /** A document as the pages hold it; the fields a page does not use are `None`. */
  datatype Document = Document(
    id: string,
    title: string,
    jobTitle: Option<string>,
    status: Status,
    date: string,
    fileUrl: Option<string>,
    signedBy: Option<string>,
    signedDate: Option<string>)
}
