# Document signing front end — Dafny model of its event handlers

The system is a single-page front end for a document-signature workflow.
Administrators upload PDF templates and mark where signatures go. Employees
open the documents assigned to them and sign them with a drawn signature.
All data is held in memory, in page state. This project models the state
machines behind the pages' event handlers and proves what they keep.

- `SignatureMarker` (signature_marker.dfy): the signature-position editor, a
  class `MarkerEditor`. It holds the ordered marker list, the placing toggle,
  the page cursor (with the page count fixed at 1, which the component never
  changes) and the zoom, kept in tenths from 5 to 20.
- `SignatureCanvas` (signature_canvas.dfy): the signature pad, a class
  `SignaturePad`. It holds the `isDrawing`/`isEmpty` flags, the name field, the
  drawing context's current path, and the picture as the set of painted line
  segments. Every pointer move strokes the whole path again.
- `DocumentUploader` (document_uploader.dfy): the upload form, a class
  `Uploader`, with the file and title guards applied in order.
- `AdminDocuments` (admin_documents.dfy): the template search, and the
  upload-complete handler that puts a new `template<n>` first in the list. The
  class invariant proves that ids stay distinct within one mounted list. The
  handler navigates to the new template's setup page, which unmounts the list;
  the next visit starts again from the three mock templates and issues
  `template4` again.
- `EmployeeDocuments` (employee_documents.dfy): the search over title or job
  title, applied to a fixed collection.
- `EmployeeDocumentView` (employee_document_view.dfy): the lookup by route
  id, showing and hiding the signature pad, and the pending-to-signed update.
- Shared helpers: `Text` (JavaScript `trim` with the exact ECMAScript
  white-space set, ASCII `toLowerCase`, `includes`, the decimal rendering of a
  number), `Seqs` (`filter`, order-preserving subsequence, and the
  positional `filter` used for removal), `Documents` (the document record),
  `Wrappers` (`Option`).

Inputs the handlers read from the browser become parameters:
- the click offset and the surface size;
- the pointer position;
- the dropped or picked files;
- the route id;
- today's date, as an opaque string.

Outputs that leave the component become return values:
- the `onSave`/`onUpload` payloads;
- the "only PDF" rejection;
- the route navigated to;
- the back-to-list request.

Three places where the code's behaviour is easy to misread:
- Upload puts the new template first in the list, not last.
- Marker coordinates are not clamped. They lie in [0, 1] when the click falls
  inside the surface, which `AddMarker` proves.
- The pad's empty flag is cleared when the pointer goes down, before anything
  is drawn (`ClickWithoutMoving`).

## Model

| member | source | states |
|---|---|---|
| Text.TrimStart | src/components/documents/SignatureCanvas.tsx:97 | the leading-white-space part of `trim`: result is a suffix, all dropped characters are white space, result does not start with white space |
| Text.TrimEnd | src/components/documents/SignatureCanvas.tsx:97 | the trailing part of `trim`: result is a prefix, all dropped characters are white space, result does not end with white space |
| Text.Trim | src/components/documents/DocumentUploader.tsx:67 | `s.trim()` is falsy exactly when every character of `s` is white space; otherwise it neither starts nor ends with white space; it occurs inside `s` with only white space before and after it |
| Text.TrimIdempotent | src/components/documents/DocumentUploader.tsx:72 | trimming an already trimmed title changes nothing |
| Text.Lower | src/pages/admin/AdminDocuments.tsx:44 | `toLowerCase` keeps the length, maps each upper-case letter to its lower-case letter, keeps every other character, and leaves no upper-case letter |
| Text.LowerIdempotent | src/pages/admin/AdminDocuments.tsx:44 | lower-casing an already lower-cased string changes nothing |
| Text.ContainsIffOccurs | src/pages/admin/AdminDocuments.tsx:44 | the `includes` scan succeeds exactly when the query occurs at some position of the string |
| Text.Contains | src/pages/admin/AdminDocuments.tsx:44 | `includes` never finds a query longer than the string and always finds the empty query |
| Text.Decimal | src/pages/admin/AdminDocuments.tsx:63 | `${n}` is a non-empty run of decimal digits with no leading zero |
| Text.DecimalRoundTrip | src/pages/admin/AdminDocuments.tsx:63 | reading the rendered number back gives the number |
| Text.DecimalInjective | src/pages/admin/AdminDocuments.tsx:63 | different numbers render differently |
| Seqs.Filter | src/pages/admin/AdminDocuments.tsx:43-45 | `filter` returns only accepted elements of the input and every accepted element of it, each accepted element as often as in the input and no rejected one |
| Seqs.FilterIsSubsequence | src/pages/employee/EmployeeDocuments.tsx:57-60 | `filter` keeps the input order: its result is a subsequence of the input |
| Seqs.FilterKeepsAll | src/pages/admin/AdminDocuments.tsx:43-45 | a filter accepting every element returns the input unchanged |
| Seqs.FilterCongruent | src/pages/admin/AdminDocuments.tsx:43-45 | filters that agree on every element give the same result |
| Seqs.WithoutIndex | src/components/documents/SignatureMarker.tsx:38 | the positional `filter` is one shorter than the list when `index` is a position of it, as long otherwise, and keeps only the list's elements |
| Seqs.WithoutIndexRemovesOne | src/components/documents/SignatureMarker.tsx:38 | `filter((_, i) => i !== index)` deletes exactly position `index` and keeps the rest in order; an index outside the list deletes nothing |
| SignatureMarker.Normalize | src/components/documents/SignatureMarker.tsx:28-30 | the fraction times the extent is the pixel offset; an offset inside the surface gives a fraction in [0, 1] |
| SignatureMarker.CentreClick | src/components/documents/SignatureMarker.tsx:28-30 | a click at (150, 300) on a 300 by 600 surface lands at (0.5, 0.5) |
| SignatureMarker.ZoomedIn | src/components/documents/SignatureMarker.tsx:63-65 | zoom in adds one tenth below 2.0 and stays at 2.0 at the bound |
| SignatureMarker.ZoomedOut | src/components/documents/SignatureMarker.tsx:67-69 | zoom out removes one tenth above 0.5 and stays at 0.5 at the bound |
| SignatureMarker.ZoomRoundTrip | src/components/documents/SignatureMarker.tsx:63-69 | zoom out undoes zoom in, and the reverse, away from the bounds; both stay within [0.5, 2.0] |
| SignatureMarker.OnPage | src/components/documents/SignatureMarker.tsx:160-161 | the markers drawn on a page are exactly the list's markers tagged with that page, each as often as in the list, in list order |
| SignatureMarker.OnPageIsAllWhenAllOnPage | src/components/documents/SignatureMarker.tsx:160-175 | when every marker is on the shown page, the drawn list is the whole list, so a screen position is a list position |
| SignatureMarker.RemovalByScreenPositionOnLaterPage | src/components/documents/SignatureMarker.tsx:160-175 | with markers on two pages the screen position and list position disagree: removal would delete another page's marker |
| SignatureMarker.MarkerEditor.constructor | src/components/documents/SignatureMarker.tsx:16-20 | no markers, page 1 of 1, not placing, zoom 1.0 |
| SignatureMarker.MarkerEditor.TogglePlacing | src/components/documents/SignatureMarker.tsx:78 | the placing toggle flips; nothing else changes |
| SignatureMarker.MarkerEditor.AddMarker | src/components/documents/SignatureMarker.tsx:25-35 | outside placing mode, or with no surface, nothing changes; otherwise exactly one marker for the current page is appended after the old ones and placing turns off; a click inside the surface gives coordinates in [0, 1] |
| SignatureMarker.MarkerEditor.RemoveMarker | src/components/documents/SignatureMarker.tsx:37-40 | only the marker at `index` of the full list is deleted, the rest keep their order; an out-of-range index changes nothing |
| SignatureMarker.MarkerEditor.ClickMarker | src/components/documents/SignatureMarker.tsx:173-176 | a marker click removes by its screen position, never adds a marker and leaves the toggle alone; with one page the clicked marker is the one removed |
| SignatureMarker.MarkerEditor.Save | src/components/documents/SignatureMarker.tsx:42-49 | no markers: nothing is saved; otherwise the list is handed over exactly as held |
| SignatureMarker.MarkerEditor.IncrementPage | src/components/documents/SignatureMarker.tsx:51-55 | the page advances by one below the last page, and nothing happens at the last page; 1 ≤ page ≤ total is kept |
| SignatureMarker.MarkerEditor.DecrementPage | src/components/documents/SignatureMarker.tsx:57-61 | the page goes back by one above page 1, and nothing happens at page 1; 1 ≤ page ≤ total is kept |
| SignatureMarker.MarkerEditor.ZoomIn | src/components/documents/SignatureMarker.tsx:63-65 | the zoom becomes `ZoomedIn` of the old zoom and stays within [0.5, 2.0] |
| SignatureMarker.MarkerEditor.ZoomOut | src/components/documents/SignatureMarker.tsx:67-69 | the zoom becomes `ZoomedOut` of the old zoom and stays within [0.5, 2.0] |
| SignatureMarker.PlaceOneMarker | src/components/documents/SignatureMarker.tsx:25-49 | toggle, a centre click, then save yields exactly one marker, (0.5, 0.5) on page 1 |
| SignatureCanvas.PathSegments | src/components/documents/SignatureCanvas.tsx:80-81 | a stroke of the path paints the line between every two consecutive points; a path of one point paints nothing |
| SignatureCanvas.PathSegmentsAreSteps | src/components/documents/SignatureCanvas.tsx:80-81 | a stroke paints nothing but lines between consecutive points of the path |
| SignatureCanvas.PathSegmentsExtend | src/components/documents/SignatureCanvas.tsx:80-81 | extending the path by one point adds exactly the line from its last point |
| SignatureCanvas.SignaturePad.constructor | src/components/documents/SignatureCanvas.tsx:16-19 | the pad starts with no name, empty, not drawing, nothing painted and no path |
| SignatureCanvas.SignaturePad.SetName | src/components/documents/SignatureCanvas.tsx:127 | the name field takes the typed text; nothing else changes |
| SignatureCanvas.SignaturePad.StartDrawing | src/components/documents/SignatureCanvas.tsx:56-69 | with a context: drawing on, empty off, a new path starting at the pointer; the picture is kept; without a context nothing changes |
| SignatureCanvas.SignaturePad.Draw | src/components/documents/SignatureCanvas.tsx:71-82 | while drawing, the pointer is appended to the path and the whole path is painted again; when the path was already on the picture that adds just the line to the pointer; otherwise nothing changes; the flags never change |
| SignatureCanvas.SignaturePad.EndDrawing | src/components/documents/SignatureCanvas.tsx:84-88 | pointer up and pointer leave end the stroke; the picture and empty flag are kept |
| SignatureCanvas.SignaturePad.Clear | src/components/documents/SignatureCanvas.tsx:90-94 | the picture is erased and the pad is empty, whatever it was before; a stroke in progress and its path are kept |
| SignatureCanvas.SignaturePad.ApplyEnabled | src/components/documents/SignatureCanvas.tsx:172 | the Apply button is enabled exactly when the pad is non-empty and the name is not blank |
| SignatureCanvas.SignaturePad.Save | src/components/documents/SignatureCanvas.tsx:96-105 | a capture is produced exactly when the pad is non-empty and the name is not blank, exactly when the Apply button is enabled, and it carries the trimmed name |
| SignatureCanvas.SignOnce | src/components/documents/SignatureCanvas.tsx:56-105 | a stroke and a name give a capture with that stroke; after a clear save is refused |
| SignatureCanvas.ClickWithoutMoving | src/components/documents/SignatureCanvas.tsx:56-59 | a press without movement draws nothing yet enables save |
| SignatureCanvas.ClearMidStroke | src/components/documents/SignatureCanvas.tsx:71-94 | a clear in the middle of a stroke followed by a move paints the erased line again, while the pad counts as empty, refuses to save and disables Clear (line 155) |
| DocumentUploader.Uploader.constructor | src/components/documents/DocumentUploader.tsx:17-19 | an empty title, no file, not dragging |
| DocumentUploader.Uploader.SetTitle | src/components/documents/DocumentUploader.tsx:93 | the title takes the typed text |
| DocumentUploader.Uploader.DragOver | src/components/documents/DocumentUploader.tsx:22-25 | the drag highlight turns on |
| DocumentUploader.Uploader.DragLeave | src/components/documents/DocumentUploader.tsx:27-30 | the drag highlight turns off |
| DocumentUploader.Uploader.Drop | src/components/documents/DocumentUploader.tsx:32-46 | every drop clears the highlight; an empty drop keeps the file; a non-PDF first file is rejected and the file kept; a PDF first file replaces it |
| DocumentUploader.Uploader.FileChange | src/components/documents/DocumentUploader.tsx:48-52 | the picker's first file is taken with no type check; an empty choice changes nothing |
| DocumentUploader.Uploader.RemoveFile | src/components/documents/DocumentUploader.tsx:54-59 | the file becomes none |
| DocumentUploader.Uploader.ContinueEnabled | src/components/documents/DocumentUploader.tsx:180 | the Continue button is enabled exactly when a file is held and the title is not blank |
| DocumentUploader.Uploader.Upload | src/components/documents/DocumentUploader.tsx:61-73 | no file: refused before the title is looked at; blank title: refused; otherwise the held file and trimmed title are handed over, exactly when the Continue button is enabled (line 180) |
| DocumentUploader.PickerSkipsTypeCheck | src/components/documents/DocumentUploader.tsx:32-52 | a text file dropped is refused, the same file picked is taken |
| AdminDocuments.FilteredDocuments | src/pages/admin/AdminDocuments.tsx:43-45 | the shown templates are exactly those whose lower-cased title includes the lower-cased query, each as often as in the list |
| AdminDocuments.FilteredIsSubsequence | src/pages/admin/AdminDocuments.tsx:43 | the search result keeps the list order |
| AdminDocuments.EmptyQueryShowsAll | src/pages/admin/AdminDocuments.tsx:43-45 | an empty search shows every template |
| AdminDocuments.SearchIgnoresQueryCase | src/pages/admin/AdminDocuments.tsx:44 | queries differing only in letter case give the same result |
| AdminDocuments.TemplateId | src/pages/admin/AdminDocuments.tsx:63 | `template${n}` is the word "template" followed by decimal digits with no leading zero (except for 0 itself) that read back as `n` |
| AdminDocuments.TemplateIdInjective | src/pages/admin/AdminDocuments.tsx:63 | `template${a}` and `template${b}` are equal only when a = b |
| AdminDocuments.NewTemplate | src/pages/admin/AdminDocuments.tsx:63-69 | the new template is numbered old length + 1, carries the given title, is pending and is dated today |
| AdminDocuments.TemplateList.constructor | src/pages/admin/AdminDocuments.tsx:16-41 | the three mock templates, distinct ids, no search, form hidden |
| AdminDocuments.TemplateList.SetSearchQuery | src/pages/admin/AdminDocuments.tsx:97 | the search text changes; the list does not |
| AdminDocuments.TemplateList.AddDocument | src/pages/admin/AdminDocuments.tsx:51-53 | the upload form is shown |
| AdminDocuments.TemplateList.UploadCancel | src/pages/admin/AdminDocuments.tsx:55-57 | the upload form is hidden; the list is unchanged |
| AdminDocuments.TemplateList.UploadComplete | src/pages/admin/AdminDocuments.tsx:59-76 | exactly one template is prepended and the old ones follow unchanged and in order; ids stay distinct; the form is hidden; the route is the new template's setup page |
| AdminDocuments.TemplateList.Shown | src/pages/admin/AdminDocuments.tsx:43-45 | the shown templates are exactly the list's templates that match the current search, in list order |
| EmployeeDocuments.FilteredDocuments | src/pages/employee/EmployeeDocuments.tsx:57-60 | a document is shown exactly when the lower-cased query is in its lower-cased title, or in its non-empty lower-cased job title, each as often as in the list |
| EmployeeDocuments.FilteredIsSubsequence | src/pages/employee/EmployeeDocuments.tsx:57 | the search result keeps the list order |
| EmployeeDocuments.EmptyQueryShowsAll | src/pages/employee/EmployeeDocuments.tsx:57-60 | an empty search shows every document |
| EmployeeDocuments.NoJobTitleMatchesOnTitleOnly | src/pages/employee/EmployeeDocuments.tsx:59 | a document without a job title (or with an empty one) matches exactly when the query occurs in its title |
| EmployeeDocuments.JobTitleAloneSuffices | src/pages/employee/EmployeeDocuments.tsx:59 | a query occurring in the job title finds the document whatever its title |
| EmployeeDocuments.SearchIgnoresQueryCase | src/pages/employee/EmployeeDocuments.tsx:58-59 | queries differing only in letter case give the same result |
| EmployeeDocuments.Shown | src/pages/employee/EmployeeDocuments.tsx:55-60 | every search draws on the one fixed collection, in its order, and the empty search shows all of it |
| EmployeeDocumentView.CatalogKeyedById | src/pages/employee/EmployeeDocumentView.tsx:15-34 | every catalogue entry is filed under its own id |
| EmployeeDocumentView.LookupAsWritten | src/pages/employee/EmployeeDocumentView.tsx:46-47 | the lookup as written refuses an absent or empty id and accepts own entries and inherited object members alike |
| EmployeeDocumentView.InheritedNamePassesLookup | src/pages/employee/EmployeeDocumentView.tsx:46 | the id `toString` passes the lookup although no document has it |
| EmployeeDocumentView.Lookup | src/pages/employee/EmployeeDocumentView.tsx:46-51 | a known id finds its own document, with that id; every other id finds nothing |
| EmployeeDocumentView.LookupAgreesOnDocuments | src/pages/employee/EmployeeDocumentView.tsx:46-51 | the corrected lookup finds a document exactly where the written one does, and refuses every inherited name |
| EmployeeDocumentView.SignedBy | src/pages/employee/EmployeeDocumentView.tsx:78-83 | signing sets status signed, the signer name and the date, and keeps id, title, job title, date and file URL |
| EmployeeDocumentView.OffersSigning | src/pages/employee/EmployeeDocumentView.tsx:139 | signing is offered for a pending and for an expired document, never for a signed one |
| EmployeeDocumentView.SigningWithdrawsOffer | src/pages/employee/EmployeeDocumentView.tsx:139-144 | a signed document no longer offers signing; signing again only replaces signer and date |
| EmployeeDocumentView.DocumentView.constructor | src/pages/employee/EmployeeDocumentView.tsx:39-41 | no document, loading, pad hidden |
| EmployeeDocumentView.DocumentView.Load | src/pages/employee/EmployeeDocumentView.tsx:43-54 | a known id loads its document; an unknown id keeps the document absent and requests the list; loading ends in both branches |
| EmployeeDocumentView.DocumentView.Sign | src/pages/employee/EmployeeDocumentView.tsx:65-67 | the pad is shown |
| EmployeeDocumentView.DocumentView.SignatureCancel | src/pages/employee/EmployeeDocumentView.tsx:69-71 | the pad is hidden, the document unchanged |
| EmployeeDocumentView.DocumentView.SignatureSave | src/pages/employee/EmployeeDocumentView.tsx:73-86 | the document becomes signed by the captured name on the given date, the pad is hidden, and the sign button is gone |
| EmployeeDocumentView.DocumentView.SignButtonShown | src/pages/employee/EmployeeDocumentView.tsx:139-144 | the sign button is shown exactly when loading is over and the loaded document is pending or expired |
| EmployeeDocumentView.SignPendingDocument | src/pages/employee/EmployeeDocumentView.tsx:46-86 | opening doc1 and signing as Jane Doe leaves it signed by Jane Doe on the given date |

## Left out

- Rendering, animation, styling and toast notifications are left out. Navigation appears only as a returned route or a back-to-list flag.
- The simulated 500 ms loading delay (src/pages/employee/EmployeeDocumentView.tsx:45) is left out: the lookup happens at once.
- Canvas pixels, stroke styling, the PNG export and the window-resize listener are left out. The picture is the set of painted segments, so painting a segment again changes nothing (anti-aliased edges that darken when painted twice are not modelled). A resize, which in the browser wipes the pixels but keeps `isEmpty`, is not modelled.
- The `closePath` in `endDrawing` is not modelled: it only adds a closing line to the path, which is never painted, since drawing resumes only after `startDrawing` begins a new path.
- DOM geometry is left out. The click offset, the pointer position and the surface size are inputs.
- Floating point is left out. Zoom is integer tenths: 0.1 steps that accumulate in floating point are not modelled. Marker coordinates are exact reals.
- The file size shown in MB and the reset of the file input's value in `handleRemoveFile` are left out.
- Today's date from `toLocaleDateString` is an opaque string input.
- Text.Lower: lower-cases ASCII letters only; JavaScript's full Unicode `toLowerCase` is not modelled.
- SignatureMarker.MarkerEditor.AddMarker: requires a surface of positive width and height. The source divides by the surface size, and a zero size would give Infinity or NaN, which is not modelled.
- SignatureMarker.MarkerEditor.ClickMarker: requires the screen position of a marker actually drawn, since a click can only reach a drawn marker.
- EmployeeDocumentView.DocumentView.Load: built on the corrected `Lookup` of the Findings row. For an inherited name such as `toString` the code as written neither loads a catalogue document nor goes back to the list; what the view then holds depends on the inherited member (see Findings), and the model does not represent that state.
- EmployeeDocumentView.DocumentView.SignatureSave: requires a loaded document. The pad is rendered only after the view has returned early for a missing document (src/pages/employee/EmployeeDocumentView.tsx:102-104), so spreading a null document never happens.
- The null checks on element references (`containerRef.current`, `canvasRef.current`, the bounding rectangle) are left out, except the marker surface's, which `AddMarker` takes as `mounted`. While the drawing context exists the canvas element is mounted.
- `FileList` being null is treated as an empty list.
- React's batching of state updates is not modelled: each handler runs to completion on the state the previous one left.
- The file passed to `handleUploadComplete` is ignored by the source and by the model.
- The admin template view and setup pages, routing and layout components hold no state logic of their own and are not part of this model.

## Findings

| source | as written | input that shows it | evidently intended | confidence | as-written member | corrected member |
|---|---|---|---|---|---|---|
| src/pages/employee/EmployeeDocumentView.tsx:46 | `id in mockDocuments` also accepts the names every object inherits from `Object.prototype` | route id `toString`, `constructor`, `isPrototypeOf`, `valueOf` or another inherited name: the lookup passes, so the not-found path (toast and return to the list) is skipped. React's state setter calls a function argument as an updater on the previous state (null): `toString` leaves the string "[object Undefined]" as the document and the sign button is shown; `constructor` leaves `{}`; `isPrototypeOf` leaves `false`, a blank page with no redirect; `__proto__` passes `Object.prototype` itself; `valueOf`, `hasOwnProperty` and `toLocaleString` throw | only the catalogue's own ids are found; any other id takes the not-found path | high (not executed) | EmployeeDocumentView.InheritedNamePassesLookup | EmployeeDocumentView.Lookup |
