/**
 * The employee's document list: a fixed collection and a search over each
 * document's title and, when it has one, its job title.
 */
module EmployeeDocuments {
  import opened Wrappers
  import opened Text
  import opened Seqs
  import opened Documents

  /** The search keeps a document when the lower-cased query is included in
      its lower-cased title, or in its lower-cased job title when that is a
      non-empty string (an empty job title is falsy and is not searched). */
  predicate Matches(d: Document, query: string) {
    || Contains(Lower(d.title), Lower(query))
    || (d.jobTitle.Some? && d.jobTitle.value != "" && Contains(Lower(d.jobTitle.value), Lower(query)))
  }

  /** The documents shown for a search, in list order. */
  function FilteredDocuments(documents: seq<Document>, query: string): (r: seq<Document>)
    ensures forall i :: 0 <= i < |r| ==> r[i] in documents && Matches(r[i], query)
    ensures forall i :: 0 <= i < |documents| && Matches(documents[i], query) ==> documents[i] in r
    ensures forall i :: 0 <= i < |documents| ==>
      multiset(r)[documents[i]] == if Matches(documents[i], query) then multiset(documents)[documents[i]] else 0
  {
    Filter(documents, (d: Document) => Matches(d, query))
  }

  /** The search result lists documents in the order of the whole list. */
  lemma FilteredIsSubsequence(documents: seq<Document>, query: string)
    ensures IsSubsequence(FilteredDocuments(documents, query), documents)
  {
    FilterIsSubsequence(documents, (d: Document) => Matches(d, query));
  }

  /** An empty search shows every document. */
  lemma EmptyQueryShowsAll(documents: seq<Document>)
    ensures FilteredDocuments(documents, "") == documents
  {
    forall i | 0 <= i < |documents| ensures Matches(documents[i], "") {
    }
    FilterKeepsAll(documents, (d: Document) => Matches(d, ""));
  }

  /** A document without a job title is found through its title alone. */
  lemma NoJobTitleMatchesOnTitleOnly(d: Document, query: string)
    requires d.jobTitle == None || d.jobTitle == Some("")
    ensures Matches(d, query) <==> exists i :: OccursAt(Lower(d.title), Lower(query), i)
  {
    ContainsIffOccurs(Lower(d.title), Lower(query));
    assert Matches(d, query) <==> Contains(Lower(d.title), Lower(query));
  }

  /** A document is found through its job title even when its title does not match. */
  lemma JobTitleAloneSuffices(d: Document, query: string, at: nat)
    requires d.jobTitle.Some? && OccursAt(Lower(d.jobTitle.value), Lower(query), at)
    ensures Matches(d, query)
  {
    ContainsIffOccurs(Lower(d.jobTitle.value), Lower(query));
  }

  /** Queries that differ only in letter case give the same result. */
  lemma SearchIgnoresQueryCase(documents: seq<Document>, q1: string, q2: string)
    requires Lower(q1) == Lower(q2)
    ensures FilteredDocuments(documents, q1) == FilteredDocuments(documents, q2)
  {
    FilterCongruent(documents, (d: Document) => Matches(d, q1), (d: Document) => Matches(d, q2));
  }

  /** The page's documents; the page never replaces them. */
  const MockDocuments: seq<Document> := [
    Document("doc1", "Employment Agreement", Some("Software Engineer"), Pending, "Added on Jun 12, 2023", None, None, None),
    Document("doc2", "Health Insurance Form", Some("Software Engineer"), Signed, "Signed on Jun 14, 2023", None, None, None),
    Document("doc3", "Tax Declaration Form W-4", Some("Software Engineer"), Pending, "Added on Jun 12, 2023", None, None, None),
    Document("doc4", "Company Policy Acknowledgment", Some("Software Engineer"), Signed, "Signed on Jun 13, 2023", None, None, None),
    Document("doc5", "Direct Deposit Authorization", Some("Software Engineer"), Pending, "Added on Jun 12, 2023", None, None, None)
  ]

  /** What the page shows for the search text `query`: always drawn from the
      same fixed collection, whatever was searched before. */
  function Shown(query: string): (r: seq<Document>)
    ensures IsSubsequence(r, MockDocuments)
    ensures query == "" ==> r == MockDocuments
  {
    FilteredIsSubsequence(MockDocuments, query);
    EmptyQueryShowsAll(MockDocuments);
    FilteredDocuments(MockDocuments, query)
  }
}
