/**
 * The draft publication records (src/scrape_acad_library/types/__init__.py):
 * the same variants and venues, but an `add_search_terms` that appends to
 * the dictionary itself on a repeated source and so raises.
 */
module DraftTypes {
  import opened Wrappers
  import opened Types

  /** The exception of the draft: dictionaries have no `append`. */
  datatype DraftError = AttributeError

  class DraftPublication {
    const bib: Bib
    var searchTerms: map<string, seq<Query>>

    /** A new draft publication starts with no provenance. */
    constructor (bib: Bib)
      ensures this.bib == bib && searchTerms == map[]
    {
      this.bib := bib;
      searchTerms := map[];
    }

    /** First add for a source makes a one-element list; a second add for it raises and changes nothing. */
    method AddSearchTerms(source: string, terms: Query) returns (r: Outcome<DraftError>)
      modifies this
      ensures old(source in searchTerms) <==> r == Fail(AttributeError)
      ensures r.Fail? ==> searchTerms == old(searchTerms)
      ensures r.Pass? ==> searchTerms == old(searchTerms)[source := [terms]]
    {
      if source in searchTerms {
        r := Fail(AttributeError);
      } else {
        searchTerms := searchTerms[source := [terms]];
        r := Pass;
      }
    }

    /** `venue()` of each draft subclass: the same rule as the settled package. */
    function Venue(): (v: string)
      ensures bib.details.Article? ==> v == bib.details.journal
      ensures bib.details.Book? ==> v == bib.title
      ensures bib.details.BookChapter? ==> v == bib.details.bookTitle
      ensures bib.details.Conference? ==> v == if bib.details.conference != "" then bib.details.conference else bib.details.bookTitle
    {
      bib.Venue()
    }
  }
}
