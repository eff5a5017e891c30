/**
 * The administrator's template list: a title search over the templates, and
 * the completion of an upload, which puts a new template at the front.
 */
module AdminDocuments {
  import opened Wrappers
  import opened Text
  import opened Seqs
  import opened Documents

  /** The search keeps a template when its lower-cased title includes the lower-cased query. */
  predicate TitleMatches(d: Document, query: string) {
    Contains(Lower(d.title), Lower(query))
  }

  /** The templates shown for a search, in list order. */
  function FilteredDocuments(documents: seq<Document>, query: string): (r: seq<Document>)
    ensures forall i :: 0 <= i < |r| ==> r[i] in documents && TitleMatches(r[i], query)
    ensures forall i :: 0 <= i < |documents| && TitleMatches(documents[i], query) ==> documents[i] in r
    ensures forall i :: 0 <= i < |documents| ==>
      multiset(r)[documents[i]] == if TitleMatches(documents[i], query) then multiset(documents)[documents[i]] else 0
  {
    Filter(documents, (d: Document) => TitleMatches(d, query))
  }

  /** The search result lists templates in the order of the whole list. */
  lemma FilteredIsSubsequence(documents: seq<Document>, query: string)
    ensures IsSubsequence(FilteredDocuments(documents, query), documents)
  {
    FilterIsSubsequence(documents, (d: Document) => TitleMatches(d, query));
  }

  /** An empty search shows every template. */
  lemma EmptyQueryShowsAll(documents: seq<Document>)
    ensures FilteredDocuments(documents, "") == documents
  {
    forall i | 0 <= i < |documents| ensures TitleMatches(documents[i], "") {
    }
    FilterKeepsAll(documents, (d: Document) => TitleMatches(d, ""));
  }

  /** Queries that differ only in letter case give the same result. */
  lemma SearchIgnoresQueryCase(documents: seq<Document>, q1: string, q2: string)
    requires Lower(q1) == Lower(q2)
    ensures FilteredDocuments(documents, q1) == FilteredDocuments(documents, q2)
  {
    FilterCongruent(documents, (d: Document) => TitleMatches(d, q1), (d: Document) => TitleMatches(d, q2));
  }

  /** `template${n}`: the word "template" followed by the decimal digits of
      `n`, which read back as `n`. */
  function TemplateId(n: nat): (r: string)
    ensures |r| > 8 && r[..8] == "template"
    ensures forall i :: 8 <= i < |r| ==> '0' <= r[i] <= '9'
    ensures r[8] == '0' ==> n == 0
    ensures ParseDecimal(r[8..]) == n
  {
    DecimalRoundTrip(n);
    var r := "template" + Decimal(n);
    assert r[8..] == Decimal(n);
    r
  }

  /** Different numbers give different template ids. */
  lemma TemplateIdInjective(a: nat, b: nat)
    requires TemplateId(a) == TemplateId(b)
    ensures a == b
  {
    assert Decimal(a) == TemplateId(a)[8..] == TemplateId(b)[8..] == Decimal(b);
    DecimalInjective(a, b);
  }

  /** The template an upload adds to a list of `count` templates: numbered
      `count + 1`, with the uploaded title, pending, created `today`. */
  function NewTemplate(count: nat, title: string, today: string): (d: Document)
    ensures d.id == TemplateId(count + 1) && d.title == title && d.status == Pending
    ensures d.date == "Created on " + today
  {
    Document(TemplateId(count + 1), title, None, Pending, "Created on " + today, None, None, None)
  }

  /** `id` is the id of a template numbered 1 to `n`. */
  ghost predicate IsTemplateIdUpTo(id: string, n: nat) {
    exists k :: 1 <= k <= n && id == TemplateId(k)
  }

  /** No two templates in the list share an id. */
  ghost predicate DistinctIds(documents: seq<Document>) {
    forall i, j :: 0 <= i < j < |documents| ==> documents[i].id != documents[j].id
  }

  /** The three templates the page starts with. */
  const MockTemplates: seq<Document> := [
    Document("template1", "Employment Agreement Template", None, Pending, "Created on Jun 10, 2023", None, None, None),
    Document("template2", "Health Insurance Form Template", None, Pending, "Created on Jun 5, 2023", None, None, None),
    Document("template3", "Tax Declaration Form W-4 Template", None, Pending, "Created on May 28, 2023", None, None, None)
  ]

  class TemplateList {
    var documents: seq<Document>
    var searchQuery: string
    var showUploader: bool

    /** Every template id is `template1` to `template<n>` for a list of n, and
        the ids are distinct: numbering by list length then never repeats an id. */
    ghost predicate Valid()
      reads this
    {
      && DistinctIds(documents)
      && forall i :: 0 <= i < |documents| ==> IsTemplateIdUpTo(documents[i].id, |documents|)
    }

    /** The mock templates, no search, the upload form hidden. */
    constructor ()
      ensures Valid()
      ensures documents == MockTemplates && searchQuery == "" && !showUploader
    {
      documents := MockTemplates;
      searchQuery := "";
      showUploader := false;
      assert TemplateId(1) == "template1" && TemplateId(2) == "template2" && TemplateId(3) == "template3";
    }

    /** Typing in the search field. */
    method SetSearchQuery(q: string)
      modifies this
      ensures searchQuery == q && documents == old(documents) && showUploader == old(showUploader)
    {
      searchQuery := q;
    }

    /** "Upload New Template": shows the upload form. */
    method AddDocument()
      modifies this
      ensures showUploader && documents == old(documents) && searchQuery == old(searchQuery)
    {
      showUploader := true;
    }

    /** "Cancel" on the upload form: hides it. */
    method UploadCancel()
      modifies this
      ensures !showUploader && documents == old(documents) && searchQuery == old(searchQuery)
    {
      showUploader := false;
    }

    /** The upload form submitted `title` (the file itself is not kept): a new
        template goes in front of the unchanged old list, the form is hidden, and
        the page moves to the new template's setup route. */
    method UploadComplete(title: string, today: string) returns (route: string)
      requires Valid()
      modifies this
      ensures Valid()
      ensures documents == [NewTemplate(|old(documents)|, title, today)] + old(documents)
      ensures !showUploader && searchQuery == old(searchQuery)
      ensures route == "/admin/documents/" + TemplateId(|old(documents)| + 1) + "/setup"
    {
      var n := |documents|;
      var newDoc := NewTemplate(n, title, today);
      forall i | 0 <= i < n ensures documents[i].id != newDoc.id {
        var k :| 1 <= k <= n && documents[i].id == TemplateId(k);
        assert ParseDecimal(documents[i].id[8..]) == k;
      }
      documents := [newDoc] + documents;
      showUploader := false;
      route := "/admin/documents/" + newDoc.id + "/setup";
    }

    /** The templates currently shown: exactly those whose title matches the
      search, in list order. */
    function Shown(): (r: seq<Document>)
      reads this
      ensures forall i :: 0 <= i < |r| ==> r[i] in documents && TitleMatches(r[i], searchQuery)
      ensures forall i :: 0 <= i < |documents| && TitleMatches(documents[i], searchQuery) ==> documents[i] in r
      ensures IsSubsequence(r, documents)
    {
      FilteredIsSubsequence(documents, searchQuery);
      FilteredDocuments(documents, searchQuery)
    }
  }
}
