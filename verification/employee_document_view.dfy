/**
 * The employee's view of one document: the lookup by route id, the signature
 * pad shown on request, and the pending-to-signed update on a saved signature.
 */
module EmployeeDocumentView {
  import opened Wrappers
  import opened Documents
  import SignatureCanvas

  /** The documents the view can show, by id. */
  const Catalog: map<string, Document> := map[
    "doc1" := Document("doc1", "Employment Agreement", Some("Software Engineer"), Pending,
                       "Added on Jun 12, 2023", Some("/sample.pdf"), None, None),
    "doc2" := Document("doc2", "Health Insurance Form", Some("Software Engineer"), Signed,
                       "Signed on Jun 14, 2023", Some("/sample.pdf"), Some("John Doe"), Some("Jun 14, 2023"))
  ]

  /** Every catalogue entry is filed under its own id. */
  lemma CatalogKeyedById()
    ensures forall k :: k in Catalog ==> Catalog[k].id == k
  {
  }

  /** The names every plain JavaScript object inherits from `Object.prototype`,
      which the `in` operator reports as present. */
  const InheritedNames: set<string> := {
    "constructor", "hasOwnProperty", "isPrototypeOf", "propertyIsEnumerable",
    "toLocaleString", "toString", "valueOf", "__proto__",
    "__defineGetter__", "__defineSetter__", "__lookupGetter__", "__lookupSetter__"
  }

  /** What the lookup finds: a document, an inherited member that is not a
      document, or nothing. */
  datatype Found = Doc(doc: Document) | InheritedMember(name: string) | NotFound

  /** `id && (id in mockDocuments)` as written: an absent or empty id is not
      found; otherwise own entries and inherited names are both found. */
  function LookupAsWritten(id: Option<string>): (r: Found)
    ensures r.NotFound? <==> id.None? || id.value == "" || (id.value !in Catalog && id.value !in InheritedNames)
    ensures r.Doc? ==> id.Some? && id.value in Catalog && r.doc == Catalog[id.value]
  {
    if id.None? || id.value == "" then NotFound
    else if id.value in Catalog then Doc(Catalog[id.value])
    else if id.value in InheritedNames then InheritedMember(id.value)
    else NotFound
  }

  /** The route `/employee/documents/toString` passes the lookup although no
      document has that id: the view hands an inherited member, not a document,
      to its state setter and never takes the not-found path. */
  lemma InheritedNamePassesLookup()
    ensures "toString" !in Catalog
    ensures LookupAsWritten(Some("toString")) == InheritedMember("toString")
  {
  }

  /** The lookup as intended: only the catalogue's own entries are found. */
  function Lookup(id: Option<string>): (r: Option<Document>)
    ensures r.Some? <==> id.Some? && id.value in Catalog
    ensures r.Some? ==> r.value == Catalog[id.value] && r.value.id == id.value
  {
    if id.Some? && id.value != "" && id.value in Catalog then Some(Catalog[id.value]) else None
  }

  /** The intended lookup finds a document exactly where the written one finds
      a document, and refuses every inherited name. */
  lemma LookupAgreesOnDocuments(id: Option<string>)
    ensures Lookup(id).Some? <==> LookupAsWritten(id).Doc?
    ensures Lookup(id).Some? ==> LookupAsWritten(id) == Doc(Lookup(id).value)
    ensures id.Some? && id.value in InheritedNames ==> Lookup(id) == None
  {
    assert forall n :: n in InheritedNames ==> n !in Catalog;
  }

  /** The record update on a saved signature: status signed, signer and signing
      date recorded, every other field as before. */
  function SignedBy(d: Document, name: string, date: string): (r: Document)
    ensures r.status == Signed && r.signedBy == Some(name) && r.signedDate == Some(date)
    ensures r.id == d.id && r.title == d.title && r.jobTitle == d.jobTitle
    ensures r.date == d.date && r.fileUrl == d.fileUrl
  {
    d.(status := Signed, signedBy := Some(name), signedDate := Some(date))
  }

  /** The "Sign Document" button is offered while the document is not signed:
      for a pending and for an expired document. */
  predicate OffersSigning(d: Document)
    ensures OffersSigning(d) <==> d.status == Pending || d.status == Expired
  {
    d.status != Signed
  }

  /** After signing, signing is no longer offered, and signing again changes only
      the signer and the date. */
  lemma SigningWithdrawsOffer(d: Document, name: string, date: string, name2: string, date2: string)
    ensures !OffersSigning(SignedBy(d, name, date))
    ensures SignedBy(SignedBy(d, name, date), name2, date2) == SignedBy(d, name2, date2)
  {
  }

  class DocumentView {
    var document: Option<Document>
    var loading: bool
    var showSignatureCanvas: bool

    /** Loading, no document, no pad. */
    constructor ()
      ensures document == None && loading && !showSignatureCanvas
    {
      document := None;
      loading := true;
      showSignatureCanvas := false;
    }

    /** The lookup for route id `id`, done at once: a known id loads its
        document; an unknown one leaves the document as it was and asks to go
        back to the list (`backToList`). Loading ends either way. */
    method Load(id: Option<string>) returns (backToList: bool)
      modifies this
      ensures document == if Lookup(id).Some? then Lookup(id) else old(document)
      ensures backToList <==> Lookup(id).None?
      ensures !loading && showSignatureCanvas == old(showSignatureCanvas)
    {
      var found := Lookup(id);
      if found.Some? {
        document := found;
        backToList := false;
      } else {
        backToList := true;
      }
      loading := false;
    }

    /** "Sign Document": shows the signature pad. */
    method Sign()
      modifies this
      ensures showSignatureCanvas && document == old(document) && loading == old(loading)
    {
      showSignatureCanvas := true;
    }

    /** "Cancel" on the pad: hides it. */
    method SignatureCancel()
      modifies this
      ensures !showSignatureCanvas && document == old(document) && loading == old(loading)
    {
      showSignatureCanvas := false;
    }

    /** The pad saved `capture` on `today`: the document becomes signed by the
        captured name and the pad is hidden. The pad is only shown with a
        document loaded. */
    method SignatureSave(capture: SignatureCanvas.Capture, today: string)
      requires document.Some?
      modifies this
      ensures document == Some(SignedBy(old(document).value, capture.name, today))
      ensures !showSignatureCanvas && loading == old(loading)
      ensures !SignButtonShown()
    {
      document := Some(SignedBy(document.value, capture.name, today));
      showSignatureCanvas := false;
    }

    /** The sign button is shown: loading is over and the loaded document is
        pending or expired. */
    predicate SignButtonShown()
      reads this
      ensures SignButtonShown() <==>
        !loading && document.Some? && (document.value.status == Pending || document.value.status == Expired)
    {
      !loading && document.Some? && OffersSigning(document.value)
    }
  }

  /** Opening doc1, which is pending, and signing it as Jane Doe marks it signed
      by Jane Doe on the given date, and the sign button disappears. */
  method SignPendingDocument(today: string) returns (after: Option<Document>)
    ensures after.Some? && after.value.id == "doc1"
    ensures after.value.status == Signed && after.value.signedBy == Some("Jane Doe")
    ensures after.value.signedDate == Some(today)
  {
    var view := new DocumentView();
    var back := view.Load(Some("doc1"));
    assert view.SignButtonShown();
    view.Sign();
    view.SignatureSave(SignatureCanvas.Capture("Jane Doe", {}), today);
    assert !view.SignButtonShown();
    after := view.document;
  }
}
