/**
 * Publication records (src/qal/types.py): the bibliographic value of a
 * record, the four variants and their venues, and the Publication object
 * whose provenance map grows in place.
 */
module Types {
  import opened Wrappers

  /** A query as the plan gives it: symbolic option names to values, in insertion order. */
  type Query = seq<(string, string)>

  /** Provenance: source name to the queries that found the record, in the order they did. */
  type SearchTerms = map<string, seq<Query>>

  /** `add_search_terms` on the provenance map. */
  function AddTerms(st: SearchTerms, source: string, terms: Query): (r: SearchTerms)
    ensures r.Keys == st.Keys + {source}
    ensures source !in st ==> r[source] == [terms]
    ensures source in st ==> r[source] == st[source] + [terms] && |r[source]| == |st[source]| + 1
    ensures forall s :: s in st && s != source ==> r[s] == st[s]
  {
    if source in st then st[source := st[source] + [terms]] else st[source := [terms]]
  }

  /** Provenance is append-only: every earlier list is a prefix of the new one. */
  lemma {:induction false} AddTermsKeepsHistory(st: SearchTerms, source: string, terms: Query)
    ensures forall s :: s in st ==> s in AddTerms(st, source, terms) && st[s] <= AddTerms(st, source, terms)[s]
  {
    var r := AddTerms(st, source, terms);
    forall s | s in st
      ensures s in r && st[s] <= r[s]
    {
      if s == source {
        assert r[s] == st[s] + [terms];
      }
    }
  }

  /** `s[:4]`: Python slicing keeps the whole string when it is shorter. */
  function YearOf(date: string): (y: string)
    ensures |y| == if |date| < 4 then |date| else 4
    ensures y <= date
  {
    if |date| <= 4 then date else date[..4]
  }

  /** The fields each subclass adds to the base record. */
  datatype Details =
    | Article(journal: string, volume: Option<string>, issue: Option<string>, abstractText: Option<string>, pages: Option<string>)
    | Conference(bookTitle: string, conference: string, abstractText: Option<string>, pages: Option<string>)
    | Book(abstractText: Option<string>)
    | BookChapter(bookTitle: string, abstractText: Option<string>, pages: Option<string>)

  /** The bibliographic part of a publication: everything the constructor sets. */
  datatype Bib = Bib(identifier: string, title: string, authors: seq<string>, year: string, details: Details)
  {
    /** `venue()` of each subclass; a Conference falls back to its book title when its venue is empty. */
    function Venue(): (v: string)
      ensures details.Article? ==> v == details.journal
      ensures details.Book? ==> v == title
      ensures details.BookChapter? ==> v == details.bookTitle
      ensures details.Conference? && details.conference != "" ==> v == details.conference
      ensures details.Conference? && details.conference == "" ==> v == details.bookTitle
    {
      match details
      case Article(journal, _, _, _, _) => journal
      case Conference(bookTitle, conference, _, _) => if conference != "" then conference else bookTitle
      case Book(_) => title
      case BookChapter(bookTitle, _, _) => bookTitle
    }
  }

  /** A value in the dictionary `asdict` returns. */
  datatype Field = Text(s: string) | NoneValue | Names(names: seq<string>) | Terms(terms: SearchTerms)

  function OptionalText(s: Option<string>): Field {
    if s.Some? then Text(s.value) else NoneValue
  }

  /** The keys of the base `asdict`. */
  const BaseKeys: set<string> := {"identifier", "title", "authors", "year", "search_terms"}

  /** The keys each subclass adds in its `asdict`. */
  function VariantKeys(d: Details): set<string> {
    match d
    case Article(_, _, _, _, _) => {"journal", "volume", "issue", "abstract", "pages"}
    case Conference(_, _, _, _) => {"book_title", "conference", "abstract", "pages"}
    case Book(_) => {"abstract"}
    case BookChapter(_, _, _) => {"book_title", "abstract", "pages"}
  }

  /** `Publication.asdict`: the base fields. */
  function BaseDict(b: Bib, st: SearchTerms): map<string, Field> {
    map["identifier" := Text(b.identifier), "title" := Text(b.title), "authors" := Names(b.authors),
        "year" := Text(b.year), "search_terms" := Terms(st)]
  }

  /**
   * `asdict` of each subclass: the base fields plus the variant's own.
   * `Book.asdict` builds the dictionary but has no return statement, so it yields None.
   */
  function AsDict(b: Bib, st: SearchTerms): (r: Option<map<string, Field>>)
    ensures r.None? <==> b.details.Book?
    ensures r.Some? ==> r.value.Keys == BaseKeys + VariantKeys(b.details)
    ensures r.Some? ==> r.value["identifier"] == Text(b.identifier) && r.value["search_terms"] == Terms(st)
                        && r.value["title"] == Text(b.title) && r.value["authors"] == Names(b.authors)
                        && r.value["year"] == Text(b.year)
    ensures b.details.Article? ==> r.value["journal"] == Text(b.details.journal)
    ensures b.details.Conference? ==> r.value["conference"] == Text(b.details.conference)
                                      && r.value["book_title"] == Text(b.details.bookTitle)
    ensures b.details.BookChapter? ==> r.value["book_title"] == Text(b.details.bookTitle)
    ensures b.details.Article? ==> r.value["volume"] == OptionalText(b.details.volume)
                                   && r.value["issue"] == OptionalText(b.details.issue)
    ensures r.Some? ==> r.value["abstract"] == OptionalText(b.details.abstractText)
                        && r.value["pages"] == OptionalText(b.details.pages)
  {
    var base := BaseDict(b, st);
    match b.details
    case Article(journal, volume, issue, abstractText, pages) =>
      Some(base["journal" := Text(journal)]["volume" := OptionalText(volume)]["issue" := OptionalText(issue)]
               ["abstract" := OptionalText(abstractText)]["pages" := OptionalText(pages)])
    case Conference(bookTitle, conference, abstractText, pages) =>
      Some(base["book_title" := Text(bookTitle)]["conference" := Text(conference)]
               ["abstract" := OptionalText(abstractText)]["pages" := OptionalText(pages)])
    case Book(_) => None
    case BookChapter(bookTitle, abstractText, pages) =>
      Some(base["book_title" := Text(bookTitle)]["abstract" := OptionalText(abstractText)]["pages" := OptionalText(pages)])
  }

  /** A publication object: fixed bibliographic data and a provenance map updated in place. */
  class Publication {
    const bib: Bib
    var searchTerms: SearchTerms

    /** A new publication starts with no provenance. */
    constructor (bib: Bib)
      ensures this.bib == bib && searchTerms == map[]
    {
      this.bib := bib;
      searchTerms := map[];
    }

    /** `add_search_terms`: append the query under the source, creating the list on first use. */
    method AddSearchTerms(source: string, terms: Query)
      modifies this
      ensures searchTerms == AddTerms(old(searchTerms), source, terms)
    {
      if source in searchTerms {
        searchTerms := searchTerms[source := searchTerms[source] + [terms]];
      } else {
        searchTerms := searchTerms[source := [terms]];
      }
    }

    /** `venue()` of the object. */
    function Venue(): string {
      bib.Venue()
    }

    /** `asdict()` of the object, provenance included. */
    function AsDictionary(): Option<map<string, Field>>
      reads this
    {
      AsDict(bib, searchTerms)
    }
  }
}
